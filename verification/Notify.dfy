/**
 * Notifications with durable deduplication. Every remote call may find new unrelated mail
 * in the inbox and may fail, a failed send possibly after the message was stored.
 */
module Notify {
  import opened Wrappers
  import opened Outcomes
  import opened IncidentLog

  const HOST_ALIAS := "__host__"

  // ----- the mail service

  datatype Fault = Fine | Refused | StoredButFailed

  /** What the outside does at each call: mail that arrived meanwhile, and how the call ends. */
  datatype Env = Env(arrivals: nat -> seq<Mail>, faults: nat -> Fault)

  datatype Box = Box(log: seq<Mail>, tick: nat)

  function Arrived(env: Env, box: Box): seq<Mail> {
    box.log + env.arrivals(box.tick)
  }

  /** The inbox after a send, and whether the client saw it succeed. */
  function Sent(env: Env, box: Box, mail: Mail): (Box, bool) {
    match env.faults(box.tick)
    case Fine => (Box(Arrived(env, box) + [mail], box.tick + 1), true)
    case Refused => (Box(Arrived(env, box), box.tick + 1), false)
    case StoredButFailed => (Box(Arrived(env, box) + [mail], box.tick + 1), false)
  }

  function Listed(env: Env, box: Box): (Box, bool) {
    (Box(Arrived(env, box), box.tick + 1), env.faults(box.tick) == Fine)
  }

  class Inbox {
    const env: Env
    var log: seq<Mail>
    var tick: nat

    constructor (env: Env, log: seq<Mail>)
      ensures this.env == env && State() == Box(log, 0)
    {
      this.env := env;
      this.log := log;
      this.tick := 0;
    }

    function State(): Box
      reads this
    {
      Box(log, tick)
    }

    method Send(mail: Mail) returns (ok: bool)
      modifies this
      ensures (State(), ok) == Sent(env, old(State()), mail)
    {
      var fault := env.faults(tick);
      log := log + env.arrivals(tick);
      tick := tick + 1;
      if fault != Refused {
        log := log + [mail];
      }
      ok := fault == Fine;
    }

    /** Newest first, at most one page, only subjects that contain the key. */
    method List(key: string) returns (page: Option<seq<Mail>>)
      modifies this
      ensures (State(), page.Some?) == Listed(env, old(State()))
      ensures page.Some? ==> page.value == Page(log, key)
    {
      var fault := env.faults(tick);
      log := log + env.arrivals(tick);
      tick := tick + 1;
      page := if fault == Fine then Some(Page(log, key)) else None;
    }
  }

  // ----- the incident store

  /** The store's answer; `None` is a failed listing. */
  function Looked(env: Env, box: Box, key: string): (Box, Option<Option<string>>) {
    var (b, ok) := Listed(env, box);
    (b, if ok then Some(Lookup(b.log, key)) else None)
  }

  function Cleared(env: Env, box: Box, key: string): (Box, bool) {
    var (b, answer) := Looked(env, box, key);
    if answer.None? then (b, false)
    else if answer.value.None? then (b, true)
    else Sent(env, b, Marker(ResolvedSubject(key)))
  }

  class IncidentStore {
    const inbox: Inbox

    constructor (inbox: Inbox)
      ensures this.inbox == inbox
    {
      this.inbox := inbox;
    }

    method ActiveCondition(key: string) returns (answer: Option<Option<string>>)
      modifies inbox
      ensures (inbox.State(), answer) == Looked(inbox.env, old(inbox.State()), key)
    {
      var listing := inbox.List(key);
      if listing.None? {
        return None;
      }
      var page := listing.value;
      for i := 0 to |page|
        invariant Decide(page[i..], key) == Decide(page, key)
      {
        assert page[i..][0] == page[i] && page[i..][1..] == page[i + 1..];
        match Read(page[i].subject, key)
        case Open(fingerprint) => return Some(Some(fingerprint));
        case Closed => return Some(None);
        case Silent =>
      }
      return Some(None);
    }

    method MarkActive(key: string, fingerprint: string) returns (ok: bool)
      modifies inbox
      ensures (inbox.State(), ok) == Sent(inbox.env, old(inbox.State()), Marker(IncidentSubject(key, fingerprint)))
    {
      ok := inbox.Send(Marker(IncidentSubject(key, fingerprint)));
    }

    method Clear(key: string) returns (ok: bool)
      modifies inbox
      ensures (inbox.State(), ok) == Cleared(inbox.env, old(inbox.State()), key)
    {
      var answer := ActiveCondition(key);
      if answer.None? {
        return false;
      }
      ok := true;
      if answer.value.Some? {
        ok := inbox.Send(Marker(ResolvedSubject(key)));
      }
    }
  }

  // ----- the notifier

  /** The hash functions and the email subjects are given. */
  datatype Config = Config(
    selfhosted: bool,
    store: bool,
    keyOf: string -> string,
    hash: string -> string,
    subjectOf: (string, Kind) -> string)

  /** An opaque suffix for the condition; nothing for no condition. */
  function Fingerprint(cfg: Config, condition: Option<string>): string {
    if condition.None? || condition.value == "" then "" else cfg.hash(condition.value)
  }

  function AlertMail(cfg: Config, alias: string, kind: Kind, fingerprint: string): Mail {
    Alert(cfg.subjectOf(alias, kind), alias, kind, fingerprint)
  }

  datatype Report = Report(
    recoveries: seq<string>, incidents: seq<string>, suppressed: seq<string>, cleared: seq<string>, degraded: bool)

  const EMPTY_REPORT := Report([], [], [], [], false)

  /** A recovery: an email, then the marker is cleared. */
  function ProcessRecovery(cfg: Config, env: Env, box: Box, o: TargetOutcome, r: Report): (Box, Option<Report>) {
    var (b, sent) := Sent(env, box, AlertMail(cfg, o.alias, Recovery, Fingerprint(cfg, o.condition)));
    var report := r.(recoveries := r.recoveries + [o.alias]);
    if !sent then (b, None)
    else if !cfg.store then (b, Some(report))
    else
      var (c, ok) := Cleared(env, b, cfg.keyOf(o.alias));
      (c, if ok then Some(report) else None)
  }

  /** The email of a failure that is not known yet, then its marker. */
  function Announce(cfg: Config, env: Env, box: Box, alias: string, fingerprint: string, r: Report)
      : (Box, Option<Report>) {
    var (b, sent) := Sent(env, box, AlertMail(cfg, alias, Incident, fingerprint));
    var report := r.(incidents := r.incidents + [alias]);
    if !sent then (b, None)
    else if !cfg.store then (b, Some(report))
    else
      var (c, ok) := Sent(env, b, Marker(IncidentSubject(cfg.keyOf(alias), fingerprint)));
      (c, if ok then Some(report) else None)
  }

  function ProcessFailure(cfg: Config, env: Env, box: Box, o: TargetOutcome, r: Report): (Box, Option<Report>) {
    var fingerprint := Fingerprint(cfg, o.condition);
    if !cfg.store then Announce(cfg, env, box, o.alias, fingerprint, r)
    else
      var (b, answer) := Looked(env, box, cfg.keyOf(o.alias));
      if answer.None? then (b, None)
      else if answer.value == Some(fingerprint) then (b, Some(r.(suppressed := r.suppressed + [o.alias])))
      else Announce(cfg, env, b, o.alias, fingerprint, r)
  }

  /** A "resolved" email when the mode wants one, then the marker is cleared. */
  function Resolve(cfg: Config, env: Env, box: Box, alias: string, fingerprint: string, mail: bool, r: Report)
      : (Box, Option<Report>) {
    var (b, sent) := if mail then Sent(env, box, AlertMail(cfg, alias, Resolved, fingerprint)) else (box, true);
    if !sent then (b, None)
    else
      var (c, ok) := Cleared(env, b, cfg.keyOf(alias));
      (c, if ok then Some(r.(cleared := r.cleared + [alias])) else None)
  }

  function ProcessPassive(cfg: Config, env: Env, box: Box, o: TargetOutcome, r: Report): (Box, Option<Report>) {
    var (b, answer) := Looked(env, box, cfg.keyOf(o.alias));
    if answer.None? then (b, None)
    else if answer.value.None? then (b, Some(r))
    else Resolve(cfg, env, b, o.alias, Fingerprint(cfg, o.condition), cfg.selfhosted, r)
  }

  /** One target; no report when a call failed and the run is aborted. */
  function ProcessOne(cfg: Config, env: Env, box: Box, o: TargetOutcome, r: Report): (Box, Option<Report>) {
    if o.IsRecovery() then ProcessRecovery(cfg, env, box, o, r)
    else if o.IsFailure() then ProcessFailure(cfg, env, box, o, r)
    else if o.IsPassiveHealthy() && cfg.store then ProcessPassive(cfg, env, box, o, r)
    else (box, Some(r))
  }

  function ProcessTargets(cfg: Config, env: Env, box: Box, outcomes: seq<TargetOutcome>, r: Report)
      : (Box, Option<Report>)
    decreases |outcomes|
  {
    if outcomes == [] then (box, Some(r))
    else
      var (b, report) := ProcessOne(cfg, env, box, outcomes[0], r);
      if report.None? then (b, None) else ProcessTargets(cfg, env, b, outcomes[1..], report.value)
  }

  /** The host roll-up of self-hosted mode. */
  function ProcessHost(cfg: Config, env: Env, box: Box, down: bool, r: Report): (Box, Option<Report>) {
    var key := cfg.keyOf(HOST_ALIAS);
    var (b, answer) := if cfg.store then Looked(env, box, key) else (box, Some(None));
    if answer.None? then (b, None)
    else if down && answer.value.Some? then (b, Some(r.(suppressed := r.suppressed + [HOST_ALIAS])))
    else if down then Announce(cfg, env, b, HOST_ALIAS, "", r)
    else if answer.value.Some? then Resolve(cfg, env, b, HOST_ALIAS, "", true, r)
    else (b, Some(r))
  }

  /** One run's notifications, given a client and a recipient. */
  function Processed(cfg: Config, env: Env, box: Box, outcomes: seq<TargetOutcome>): (Box, Option<Report>) {
    if !cfg.selfhosted then ProcessTargets(cfg, env, box, outcomes, EMPTY_REPORT)
    else
      var down := HostDown(outcomes);
      var (b, report) := ProcessHost(cfg, env, box, down, EMPTY_REPORT);
      if down || report.None? then (b, report)
      else ProcessTargets(cfg, env, b, outcomes, report.value)
  }

  /** Whether a run has anything to tell. */
  predicate Notable(outcomes: seq<TargetOutcome>) {
    exists i | 0 <= i < |outcomes| :: outcomes[i].IsRecovery() || outcomes[i].IsFailure()
  }

  class Notifier {
    const client: Inbox?
    const recipient: bool
    const store: IncidentStore?
    const cfg: Config

    ghost predicate Valid() {
      && cfg.store == (store != null)
      && (store != null ==> client != null && store.inbox == client)
    }

    constructor (client: Inbox?, recipient: bool, store: IncidentStore?, cfg: Config)
      requires cfg.store == (store != null) && (store != null ==> client != null && store.inbox == client)
      ensures Valid() && this.client == client && this.recipient == recipient && this.cfg == cfg
    {
      this.client := client;
      this.recipient := recipient;
      this.store := store;
      this.cfg := cfg;
    }

    method Alerted(alias: string, fingerprint: string, r: Report) returns (report: Option<Report>)
      requires Valid() && client != null
      modifies client
      ensures (client.State(), report) == Announce(cfg, client.env, old(client.State()), alias, fingerprint, r)
    {
      var sent := client.Send(AlertMail(cfg, alias, Incident, fingerprint));
      if !sent {
        return None;
      }
      if store != null {
        var ok := store.MarkActive(cfg.keyOf(alias), fingerprint);
        if !ok {
          return None;
        }
      }
      return Some(r.(incidents := r.incidents + [alias]));
    }

    method Over(alias: string, fingerprint: string, mail: bool, r: Report) returns (report: Option<Report>)
      requires Valid() && store != null
      modifies client
      ensures (client.State(), report) == Resolve(cfg, client.env, old(client.State()), alias, fingerprint, mail, r)
    {
      if mail {
        var sent := client.Send(AlertMail(cfg, alias, Resolved, fingerprint));
        if !sent {
          return None;
        }
      }
      var ok := store.Clear(cfg.keyOf(alias));
      return if ok then Some(r.(cleared := r.cleared + [alias])) else None;
    }

    method One(o: TargetOutcome, r: Report) returns (report: Option<Report>)
      requires Valid() && client != null
      modifies client
      ensures (client.State(), report) == ProcessOne(cfg, client.env, old(client.State()), o, r)
    {
      var key, fingerprint := cfg.keyOf(o.alias), Fingerprint(cfg, o.condition);
      if o.IsRecovery() {
        var sent := client.Send(AlertMail(cfg, o.alias, Recovery, fingerprint));
        if !sent {
          return None;
        }
        if store != null {
          var ok := store.Clear(key);
          if !ok {
            return None;
          }
        }
        return Some(r.(recoveries := r.recoveries + [o.alias]));
      } else if o.IsFailure() {
        if store != null {
          var answer := store.ActiveCondition(key);
          if answer.None? {
            return None;
          }
          if answer.value == Some(fingerprint) {
            return Some(r.(suppressed := r.suppressed + [o.alias]));
          }
        }
        report := Alerted(o.alias, fingerprint, r);
      } else if o.IsPassiveHealthy() && store != null {
        var answer := store.ActiveCondition(key);
        if answer.None? {
          return None;
        }
        if answer.value.None? {
          return Some(r);
        }
        report := Over(o.alias, fingerprint, cfg.selfhosted, r);
      } else {
        report := Some(r);
      }
    }

    method Host(down: bool, r: Report) returns (report: Option<Report>)
      requires Valid() && client != null
      modifies client
      ensures (client.State(), report) == ProcessHost(cfg, client.env, old(client.State()), down, r)
    {
      var known := false;
      if store != null {
        var answer := store.ActiveCondition(cfg.keyOf(HOST_ALIAS));
        if answer.None? {
          return None;
        }
        known := answer.value.Some?;
      }
      if down && known {
        return Some(r.(suppressed := r.suppressed + [HOST_ALIAS]));
      } else if down {
        report := Alerted(HOST_ALIAS, "", r);
      } else if known {
        report := Over(HOST_ALIAS, "", true, r);
      } else {
        report := Some(r);
      }
    }

    /** No report stands for the notification error that aborts the run's notifications. */
    method Process(outcomes: seq<TargetOutcome>) returns (report: Option<Report>)
      requires Valid()
      modifies if client == null then {} else {client}
      ensures client == null || !recipient ==>
        && report.Some? && report.value == EMPTY_REPORT.(degraded := report.value.degraded)
        && (report.value.degraded <==> exists i | 0 <= i < |outcomes| ::
              if outcomes[i].recovered then outcomes[i].action != NoAction else !outcomes[i].deferred)
      ensures client != null && !recipient ==> client.State() == old(client.State())
      ensures client != null && recipient ==>
        (client.State(), report) == Processed(cfg, client.env, old(client.State()), outcomes)
    {
      if client == null || !recipient {
        return Some(EMPTY_REPORT.(degraded := Notable(outcomes)));
      }
      report := Some(EMPTY_REPORT);
      if cfg.selfhosted {
        report := Host(HostDown(outcomes), EMPTY_REPORT);
        if report.None? || HostDown(outcomes) {
          return;
        }
      }
      report := Targets(outcomes, report.value);
    }

    /** The targets in order, up to the first failed call. */
    method Targets(outcomes: seq<TargetOutcome>, r: Report) returns (report: Option<Report>)
      requires Valid() && client != null
      modifies client
      ensures (client.State(), report) == ProcessTargets(cfg, client.env, old(client.State()), outcomes, r)
    {
      ghost var result := ProcessTargets(cfg, client.env, client.State(), outcomes, r);
      report := Some(r);
      var i := 0;
      while i < |outcomes|
        invariant 0 <= i <= |outcomes| && report.Some?
        invariant ProcessTargets(cfg, client.env, client.State(), outcomes[i..], report.value) == result
      {
        assert outcomes[i..][0] == outcomes[i] && outcomes[i..][1..] == outcomes[i + 1..];
        report := One(outcomes[i], report.value);
        if report.None? {
          return;
        }
        i := i + 1;
      }
    }
  }
}
