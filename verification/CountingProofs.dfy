/** The logs the notifier writes, and when counting their markers would do. */
module CountingProofs {
  import opened Text
  import opened Outcomes
  import opened IncidentLog
  import opened Notify
  import opened NotifyProofs

  lemma OrderlyAppend(log: seq<Mail>, m: Mail, key: string)
    requires Orderly(log, key) && (Read(m.subject, key) == Closed ==> Active(log, key).Some?)
    ensures Orderly(log + [m], key)
  {
    var more := log + [m];
    forall n | 0 <= n < |more| && Read(more[n].subject, key) == Closed ensures Active(more[..n], key).Some? {
      assert more[..n] == log[..n];
      if n == |log| { assert log[..n] == log; }
    }
  }

  lemma {:induction false} OrderlyForeign(log: seq<Mail>, more: seq<Mail>, key: string)
    requires Orderly(log, key) && forall i | 0 <= i < |more| :: !Occurs(key, more[i].subject)
    ensures Orderly(log + more, key) && Active(log + more, key) == Active(log, key)
  {
    if more == [] {
      assert log + more == log;
    } else {
      var n := |more| - 1;
      OrderlyForeign(log, more[..n], key);
      SilentUnlessFound(more[n], key);
      OrderlyAppend(log + more[..n], more[n], key);
      assert log + more == log + more[..n] + [more[n]];
      assert (log + more[..n] + [more[n]])[..|log| + n] == log + more[..n];
    }
  }

  ghost predicate O(cfg: Config, box: Box, alias: string) {
    Orderly(box.log, cfg.keyOf(alias))
  }

  lemma SentOrderly(cfg: Config, env: Env, aliases: set<string>, box: Box, mail: Mail, b: string)
    requires Setting(cfg, env, aliases) && b in aliases && O(cfg, box, b)
    requires Read(mail.subject, cfg.keyOf(b)) == Closed ==> Active(box.log, cfg.keyOf(b)).Some?
    ensures O(cfg, Sent(env, box, mail).0, b)
  {
    OrderlyForeign(box.log, env.arrivals(box.tick), cfg.keyOf(b));
    OrderlyAppend(Arrived(env, box), mail, cfg.keyOf(b));
  }

  lemma AlertOrderly(cfg: Config, env: Env, aliases: set<string>, box: Box, a: string, kind: Kind, fingerprint: string,
      b: string)
    requires Setting(cfg, env, aliases) && a in aliases && b in aliases && O(cfg, box, b)
    ensures O(cfg, Sent(env, box, AlertMail(cfg, a, kind, fingerprint)).0, b)
  {
    SilentUnlessFound(AlertMail(cfg, a, kind, fingerprint), cfg.keyOf(b));
    SentOrderly(cfg, env, aliases, box, AlertMail(cfg, a, kind, fingerprint), b);
  }

  lemma MarkOrderly(cfg: Config, env: Env, aliases: set<string>, box: Box, a: string, fingerprint: string, b: string)
    requires Setting(cfg, env, aliases) && a in aliases && b in aliases && O(cfg, box, b) && IsFingerprint(fingerprint)
    ensures O(cfg, Sent(env, box, Marker(IncidentSubject(cfg.keyOf(a), fingerprint))).0, b)
  {
    var mail := Marker(IncidentSubject(cfg.keyOf(a), fingerprint));
    IncidentReads(cfg.keyOf(a), fingerprint, cfg.keyOf(b));
    if a != b { SilentUnlessFound(mail, cfg.keyOf(b)); }
    SentOrderly(cfg, env, aliases, box, mail, b);
  }

  lemma AnnounceOrderly(cfg: Config, env: Env, aliases: set<string>, box: Box, a: string, fingerprint: string,
      r: Report,
      b: string)
    requires Setting(cfg, env, aliases) && a in aliases && b in aliases && O(cfg, box, b) && IsFingerprint(fingerprint)
    ensures O(cfg, Announce(cfg, env, box, a, fingerprint, r).0, b)
  {
    AlertOrderly(cfg, env, aliases, box, a, Incident, fingerprint, b);
    MarkOrderly(cfg, env, aliases, Sent(env, box, AlertMail(cfg, a, Incident, fingerprint)).0, a, fingerprint, b);
  }

  lemma LookedOrderly(cfg: Config, env: Env, aliases: set<string>, box: Box, a: string, b: string)
    requires Setting(cfg, env, aliases) && b in aliases && O(cfg, box, b)
    ensures O(cfg, Looked(env, box, cfg.keyOf(a)).0, b)
  {
    OrderlyForeign(box.log, env.arrivals(box.tick), cfg.keyOf(b));
  }

  /** A resolved marker is sent only when the search found the incident open. */
  lemma ClearedOrderly(cfg: Config, env: Env, aliases: set<string>, box: Box, a: string, b: string)
    requires Setting(cfg, env, aliases) && a in aliases && b in aliases && P(cfg, box, a) && P(cfg, box, b)
      && O(cfg, box, b)
    ensures O(cfg, Cleared(env, box, cfg.keyOf(a)).0, b)
  {
    LookedOrderly(cfg, env, aliases, box, a, b);
    LookedView(cfg, env, aliases, box, a, b);
    LookedView(cfg, env, aliases, box, a, a);
    var (c, answer) := Looked(env, box, cfg.keyOf(a));
    if answer.Some? && answer.value.Some? {
      var mail := Marker(ResolvedSubject(cfg.keyOf(a)));
      ViewActive(c.log, a, cfg.keyOf(a));
      if a != b {
        ResolvedReads(cfg.keyOf(a), cfg.keyOf(b));
        SilentUnlessFound(mail, cfg.keyOf(b));
      }
      SentOrderly(cfg, env, aliases, c, mail, b);
    }
  }

  lemma ResolveOrderly(cfg: Config, env: Env, aliases: set<string>, box: Box, a: string, fingerprint: string,
      mail: bool,
      r: Report, b: string)
    requires Setting(cfg, env, aliases) && a in aliases && b in aliases && P(cfg, box, a) && P(cfg, box, b)
      && O(cfg, box, b)
    ensures O(cfg, Resolve(cfg, env, box, a, fingerprint, mail, r).0, b)
  {
    if mail {
      MailView(cfg, env, aliases, box, a, Resolved, fingerprint, b);
      MailView(cfg, env, aliases, box, a, Resolved, fingerprint, a);
      AlertOrderly(cfg, env, aliases, box, a, Resolved, fingerprint, b);
    }
    var (c, sent) := if mail then Sent(env, box, AlertMail(cfg, a, Resolved, fingerprint)) else (box, true);
    if sent { ClearedOrderly(cfg, env, aliases, c, a, b); }
  }

  lemma RecoveryOrderly(cfg: Config, env: Env, aliases: set<string>, box: Box, o: TargetOutcome, r: Report, b: string)
    requires Setting(cfg, env, aliases) && o.alias in aliases && b in aliases
    requires P(cfg, box, o.alias) && P(cfg, box, b) && O(cfg, box, b)
    ensures O(cfg, ProcessRecovery(cfg, env, box, o, r).0, b)
  {
    var fingerprint := Fingerprint(cfg, o.condition);
    MailView(cfg, env, aliases, box, o.alias, Recovery, fingerprint, b);
    MailView(cfg, env, aliases, box, o.alias, Recovery, fingerprint, o.alias);
    AlertOrderly(cfg, env, aliases, box, o.alias, Recovery, fingerprint, b);
    var (c, sent) := Sent(env, box, AlertMail(cfg, o.alias, Recovery, fingerprint));
    if sent && cfg.store { ClearedOrderly(cfg, env, aliases, c, o.alias, b); }
  }

  lemma FailureOrderly(cfg: Config, env: Env, aliases: set<string>, box: Box, o: TargetOutcome, r: Report, b: string)
    requires Setting(cfg, env, aliases) && o.alias in aliases && b in aliases && O(cfg, box, b)
    ensures O(cfg, ProcessFailure(cfg, env, box, o, r).0, b)
  {
    FingerprintShape(cfg, env, aliases, o.condition);
    var c := box;
    if cfg.store {
      LookedOrderly(cfg, env, aliases, box, o.alias, b);
      c := Looked(env, box, cfg.keyOf(o.alias)).0;
    }
    AnnounceOrderly(cfg, env, aliases, c, o.alias, Fingerprint(cfg, o.condition), r, b);
  }

  lemma OneOrderly(cfg: Config, env: Env, aliases: set<string>, box: Box, o: TargetOutcome, r: Report, b: string)
    requires Setting(cfg, env, aliases) && o.alias in aliases && b in aliases
    requires P(cfg, box, o.alias) && P(cfg, box, b) && O(cfg, box, b)
    ensures O(cfg, ProcessOne(cfg, env, box, o, r).0, b)
  {
    if o.IsRecovery() {
      RecoveryOrderly(cfg, env, aliases, box, o, r, b);
    } else if o.IsFailure() {
      FailureOrderly(cfg, env, aliases, box, o, r, b);
    } else if o.IsPassiveHealthy() && cfg.store {
      LookedOrderly(cfg, env, aliases, box, o.alias, b);
      LookedView(cfg, env, aliases, box, o.alias, b);
      var (c, answer) := Looked(env, box, cfg.keyOf(o.alias));
      if answer.Some? {
        ResolveOrderly(cfg, env, aliases, c, o.alias, Fingerprint(cfg, o.condition), cfg.selfhosted, r, b);
      }
    }
  }

  lemma {:induction false} TargetsOrderly(cfg: Config, env: Env, aliases: set<string>, box: Box,
      outcomes: seq<TargetOutcome>, r: Report, b: string)
    requires Setting(cfg, env, aliases) && b in aliases && AllProper(cfg, box, aliases) && Watched(outcomes, aliases)
    requires O(cfg, box, b)
    ensures O(cfg, ProcessTargets(cfg, env, box, outcomes, r).0, b)
    decreases |outcomes|
  {
    if outcomes != [] {
      var (c, report) := ProcessOne(cfg, env, box, outcomes[0], r);
      OneOrderly(cfg, env, aliases, box, outcomes[0], r, b);
      forall a | a in aliases ensures P(cfg, c, a) { OneView(cfg, env, aliases, box, outcomes[0], r, a); }
      if report.Some? { TargetsOrderly(cfg, env, aliases, c, outcomes[1..], report.value, b); }
    }
  }

  lemma HostOrderly(cfg: Config, env: Env, aliases: set<string>, box: Box, down: bool, r: Report, b: string)
    requires Setting(cfg, env, aliases) && b in aliases && P(cfg, box, HOST_ALIAS) && P(cfg, box, b) && O(cfg, box, b)
    ensures O(cfg, ProcessHost(cfg, env, box, down, r).0, b)
  {
    var h := HOST_ALIAS;
    var c := box;
    if cfg.store {
      LookedOrderly(cfg, env, aliases, box, h, b);
      LookedView(cfg, env, aliases, box, h, b);
      c := Looked(env, box, cfg.keyOf(h)).0;
    }
    AnnounceOrderly(cfg, env, aliases, c, h, "", r, b);
    ResolveOrderly(cfg, env, aliases, c, h, "", true, r, b);
  }

  lemma RunOrderly(cfg: Config, env: Env, aliases: set<string>, box: Box, outcomes: seq<TargetOutcome>, b: string)
    requires Setting(cfg, env, aliases) && b in aliases && AllProper(cfg, box, aliases) && Watched(outcomes, aliases)
    requires O(cfg, box, b)
    ensures O(cfg, Processed(cfg, env, box, outcomes).0, b)
  {
    if cfg.selfhosted {
      var down := HostDown(outcomes);
      var (c, report) := ProcessHost(cfg, env, box, down, EMPTY_REPORT);
      HostOrderly(cfg, env, aliases, box, down, EMPTY_REPORT, b);
      forall a | a in aliases ensures P(cfg, c, a) { HostView(cfg, env, aliases, box, down, EMPTY_REPORT, a); }
      if report.Some? && !down { TargetsOrderly(cfg, env, aliases, c, outcomes, report.value, b); }
    } else {
      TargetsOrderly(cfg, env, aliases, box, outcomes, EMPTY_REPORT, b);
    }
  }

  /** The notifier resolves only what is open, whatever sends and listings fail. */
  lemma {:induction false} RunsAreOrderly(cfg: Config, env: Env, aliases: set<string>, box: Box,
      runs: seq<seq<TargetOutcome>>, b: string)
    requires Setting(cfg, env, aliases) && b in aliases && AllProper(cfg, box, aliases) && AllWatched(runs, aliases)
    requires O(cfg, box, b)
    ensures O(cfg, Runs(cfg, env, box, runs), b)
    decreases |runs|
  {
    if runs != [] {
      assert Watched(runs[0], aliases);
      RunOrderly(cfg, env, aliases, box, runs[0], b);
      RunView(cfg, env, aliases, box, runs[0], b);
      RunsAreOrderly(cfg, env, aliases, Processed(cfg, env, box, runs[0]).0, runs[1..], b);
    }
  }

  /**
   * In the log that any sequence of runs leaves, counting markers agrees with the newest marker all
   * along exactly when every resolved marker ends one incident marker.
   */
  lemma CountingOverRuns(cfg: Config, env: Env, aliases: set<string>, box: Box, runs: seq<seq<TargetOutcome>>,
      b: string)
    requires Setting(cfg, env, aliases) && b in aliases && AllProper(cfg, box, aliases) && AllWatched(runs, aliases)
    requires O(cfg, box, b)
    ensures var log, key := Runs(cfg, env, box, runs).log, cfg.keyOf(b);
      (forall n | 0 <= n <= |log| :: CountingAgrees(log[..n], key)) <==> OneByOne(log, key)
  {
    RunsAreOrderly(cfg, env, aliases, box, runs, b);
    CountingAgreesOneByOne(Runs(cfg, env, box, runs).log, cfg.keyOf(b));
  }
}
