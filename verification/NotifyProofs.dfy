/** What any sequence of runs leaves in the inbox, with and without delivery faults. */
module NotifyProofs {
  import opened Wrappers
  import opened Text
  import opened Outcomes
  import opened IncidentLog
  import opened Notify

  // ----- the inbox as one alias sees it

  /** The open condition, the emails so far, and the conditions announced since the last resolved marker. */
  datatype View = View(active: Option<string>, emails: seq<(Kind, string)>, announced: set<string>)

  const UNKNOWN := View(None, [], {})

  function See(v: View, m: Mail, alias: string, key: string): View {
    if m.Alert? then
      if m.alias != alias then v
      else View(v.active, v.emails + [(m.kind, m.fingerprint)],
             if m.kind.Incident? then v.announced + {m.fingerprint} else v.announced)
    else match Read(m.subject, key)
      case Open(fingerprint) => v.(active := Some(fingerprint))
      case Closed => v.(active := None, announced := {})
      case Silent => v
  }

  function ViewOf(log: seq<Mail>, alias: string, key: string): View {
    if log == [] then UNKNOWN else See(ViewOf(log[..|log| - 1], alias, key), log[|log| - 1], alias, key)
  }

  /** Only markers contain the key, and those that do are the key's own. */
  ghost predicate Proper(m: Mail, key: string) {
    CleanFor(m, key) && (!m.Marker? ==> !Occurs(key, m.subject))
  }

  ghost predicate ProperLog(log: seq<Mail>, key: string) {
    forall i | 0 <= i < |log| :: Proper(log[i], key)
  }

  /**
   * The hypotheses on hashes and mail: keys are distinct 16-digit hex strings, fingerprints
   * 12-digit ones, and neither alert subjects nor unrelated mail contain a key.
   */
  ghost predicate Setting(cfg: Config, env: Env, aliases: set<string>) {
    && HOST_ALIAS in aliases
    && (forall a | a in aliases :: IsKey(cfg.keyOf(a)))
    && (forall a, b | a in aliases && b in aliases && cfg.keyOf(a) == cfg.keyOf(b) :: a == b)
    && (forall c: string :: |cfg.hash(c)| == 12 && Hex(cfg.hash(c)))
    && (forall a, b, kind | a in aliases && b in aliases :: !Occurs(cfg.keyOf(b), cfg.subjectOf(a, kind)))
    && (forall n: nat, i, b | 0 <= i < |env.arrivals(n)| && b in aliases ::
          env.arrivals(n)[i].Foreign? && !Occurs(cfg.keyOf(b), env.arrivals(n)[i].subject))
  }

  lemma SeenLast(log: seq<Mail>, m: Mail, alias: string, key: string)
    ensures ViewOf(log + [m], alias, key) == See(ViewOf(log, alias, key), m, alias, key)
  {
    assert (log + [m])[..|log|] == log;
  }

  lemma SilentUnlessFound(m: Mail, key: string)
    requires !Occurs(key, m.subject)
    ensures Read(m.subject, key) == Silent
  {
    if Read(m.subject, key) != Silent { ReadContainsKey(m.subject, key); }
  }

  lemma {:induction false} ForeignUnseen(log: seq<Mail>, more: seq<Mail>, alias: string, key: string)
    requires ProperLog(log, key) && forall i | 0 <= i < |more| :: more[i].Foreign? && !Occurs(key, more[i].subject)
    ensures ProperLog(log + more, key) && ViewOf(log + more, alias, key) == ViewOf(log, alias, key)
  {
    if more == [] {
      assert log + more == log;
    } else {
      var n := |more| - 1;
      ForeignUnseen(log, more[..n], alias, key);
      assert log + more == log + more[..n] + [more[n]];
      SeenLast(log + more[..n], more[n], alias, key);
      SilentUnlessFound(more[n], key);
    }
  }

  lemma {:induction false} ViewActive(log: seq<Mail>, alias: string, key: string)
    requires ProperLog(log, key)
    ensures ViewOf(log, alias, key).active == Active(log, key) == Lookup(log, key)
  {
    if log != [] {
      var m := log[|log| - 1];
      ViewActive(log[..|log| - 1], alias, key);
      assert Proper(m, key);
      if !m.Marker? { SilentUnlessFound(m, key); }
    }
    LookupIsFold(log, {key}, key);
  }

  // ----- the calls

  function V(cfg: Config, box: Box, alias: string): View {
    ViewOf(box.log, alias, cfg.keyOf(alias))
  }

  ghost predicate P(cfg: Config, box: Box, alias: string) {
    ProperLog(box.log, cfg.keyOf(alias))
  }

  lemma ArrivalsUnseen(cfg: Config, env: Env, aliases: set<string>, box: Box, b: string)
    requires Setting(cfg, env, aliases) && b in aliases && P(cfg, box, b)
    ensures ProperLog(Arrived(env, box), cfg.keyOf(b))
    ensures ViewOf(Arrived(env, box), b, cfg.keyOf(b)) == V(cfg, box, b)
  {
    ForeignUnseen(box.log, env.arrivals(box.tick), b, cfg.keyOf(b));
  }

  lemma SentView(cfg: Config, env: Env, aliases: set<string>, box: Box, mail: Mail, b: string)
    requires Setting(cfg, env, aliases) && b in aliases && P(cfg, box, b) && Proper(mail, cfg.keyOf(b))
    ensures var (c, ok) := Sent(env, box, mail);
      && P(cfg, c, b) && (env.faults(box.tick).Fine? <==> ok)
      && V(cfg, c, b) == if env.faults(box.tick).Refused? then V(cfg, box, b)
        else See(V(cfg, box, b), mail, b, cfg.keyOf(b))
  {
    ArrivalsUnseen(cfg, env, aliases, box, b);
    SeenLast(Arrived(env, box), mail, b, cfg.keyOf(b));
  }

  lemma LookedView(cfg: Config, env: Env, aliases: set<string>, box: Box, a: string, b: string)
    requires Setting(cfg, env, aliases) && a in aliases && b in aliases && P(cfg, box, b) && P(cfg, box, a)
    ensures var (c, answer) := Looked(env, box, cfg.keyOf(a));
      && P(cfg, c, b) && V(cfg, c, b) == V(cfg, box, b) && P(cfg, c, a)
      && (answer.Some? <==> env.faults(box.tick).Fine?)
      && (answer.Some? ==> answer.value == V(cfg, box, a).active)
  {
    ArrivalsUnseen(cfg, env, aliases, box, b);
    ArrivalsUnseen(cfg, env, aliases, box, a);
    ViewActive(Arrived(env, box), a, cfg.keyOf(a));
  }

  /** An alert about `a` is seen as an email by `a` and not at all by the others. */
  lemma AlertSeen(cfg: Config, env: Env, aliases: set<string>, a: string, kind: Kind, fingerprint: string, b: string,
      v: View)
    requires Setting(cfg, env, aliases) && a in aliases && b in aliases
    ensures Proper(AlertMail(cfg, a, kind, fingerprint), cfg.keyOf(b))
    ensures a != b ==> See(v, AlertMail(cfg, a, kind, fingerprint), b, cfg.keyOf(b)) == v
  {
  }

  lemma IncidentSeen(cfg: Config, env: Env, aliases: set<string>, a: string, fingerprint: string, b: string, v: View)
    requires Setting(cfg, env, aliases) && a in aliases && b in aliases && IsFingerprint(fingerprint)
    ensures Proper(Marker(IncidentSubject(cfg.keyOf(a), fingerprint)), cfg.keyOf(b))
    ensures See(v, Marker(IncidentSubject(cfg.keyOf(a), fingerprint)), b, cfg.keyOf(b))
         == if a == b then v.(active := Some(fingerprint)) else v
  {
    IncidentReads(cfg.keyOf(a), fingerprint, cfg.keyOf(b));
    if a != b { SilentUnlessFound(Marker(IncidentSubject(cfg.keyOf(a), fingerprint)), cfg.keyOf(b)); }
  }

  lemma ResolvedSeen(cfg: Config, env: Env, aliases: set<string>, a: string, b: string, v: View)
    requires Setting(cfg, env, aliases) && a in aliases && b in aliases
    ensures Proper(Marker(ResolvedSubject(cfg.keyOf(a))), cfg.keyOf(b))
    ensures See(v, Marker(ResolvedSubject(cfg.keyOf(a))), b, cfg.keyOf(b))
         == if a == b then v.(active := None, announced := {}) else v
  {
    ResolvedReads(cfg.keyOf(a), cfg.keyOf(b));
    if a != b { SilentUnlessFound(Marker(ResolvedSubject(cfg.keyOf(a))), cfg.keyOf(b)); }
  }

  // ----- the automaton one alias goes through

  /** A new condition: an email, and the condition becomes the open one. */
  function AutoAnnounce(cfg: Config, v: View, fingerprint: string): View {
    View(if cfg.store then Some(fingerprint) else v.active,
      v.emails + [(Incident, fingerprint)], v.announced + {fingerprint})
  }

  /** No condition is open any more. */
  function AutoClear(v: View): View {
    if v.active.None? then v else v.(active := None, announced := {})
  }

  function AutoMail(v: View, kind: Kind, fingerprint: string): View {
    v.(emails := v.emails + [(kind, fingerprint)])
  }

  function Auto(cfg: Config, v: View, o: TargetOutcome): View {
    var fingerprint := Fingerprint(cfg, o.condition);
    if o.IsRecovery() then
      var mailed := AutoMail(v, Recovery, fingerprint);
      if cfg.store then AutoClear(mailed) else mailed
    else if o.IsFailure() then
      if cfg.store && v.active == Some(fingerprint) then v else AutoAnnounce(cfg, v, fingerprint)
    else if o.IsPassiveHealthy() && cfg.store && v.active.Some? then
      AutoClear(if cfg.selfhosted then AutoMail(v, Resolved, fingerprint) else v)
    else v
  }

  /** An open condition has been announced since the last resolved marker. */
  predicate Justified(v: View) {
    v.active.Some? ==> v.active.value in v.announced
  }

  /** How many emails of a kind there are. */
  function MailsOf(emails: seq<(Kind, string)>, kind: Kind): nat {
    if emails == [] then 0
    else MailsOf(emails[..|emails| - 1], kind) + if emails[|emails| - 1].0 == kind then 1 else 0
  }

  function Incidents(emails: seq<(Kind, string)>): nat {
    MailsOf(emails, Incident)
  }

  lemma MailsLast(emails: seq<(Kind, string)>, e: (Kind, string), kind: Kind)
    ensures MailsOf(emails + [e], kind) == MailsOf(emails, kind) + if e.0 == kind then 1 else 0
  {
    assert (emails + [e])[..|emails|] == emails;
  }

  lemma IncidentsLast(emails: seq<(Kind, string)>, e: (Kind, string))
    ensures Incidents(emails + [e]) == Incidents(emails) + if e.0.Incident? then 1 else 0
  {
    MailsLast(emails, e, Incident);
  }

  /** One step that may have been cut short, as the alias it is about sees it. */
  predicate Step(v: View, w: View, done: View, ok: bool) {
    && (ok ==> w == done)
    && (Justified(v) ==> Justified(w))
    && Incidents(w.emails) <= Incidents(v.emails) + 1
  }

  lemma AnnounceView(cfg: Config, env: Env, aliases: set<string>, box: Box, a: string, fingerprint: string, r: Report,
      b: string)
    requires Setting(cfg, env, aliases) && a in aliases && b in aliases && P(cfg, box, b) && IsFingerprint(fingerprint)
    ensures var (c, report) := Announce(cfg, env, box, a, fingerprint, r);
      && P(cfg, c, b)
      && (a != b ==> V(cfg, c, b) == V(cfg, box, b))
      && (a == b ==> Step(V(cfg, box, b), V(cfg, c, b), AutoAnnounce(cfg, V(cfg, box, b), fingerprint), report.Some?))
  {
    var mail := AlertMail(cfg, a, Incident, fingerprint);
    var v := V(cfg, box, b);
    AlertSeen(cfg, env, aliases, a, Incident, fingerprint, b, v);
    SentView(cfg, env, aliases, box, mail, b);
    IncidentsLast(v.emails, (Incident, fingerprint));
    var (c, sent) := Sent(env, box, mail);
    if sent && cfg.store {
      IncidentSeen(cfg, env, aliases, a, fingerprint, b, V(cfg, c, b));
      SentView(cfg, env, aliases, c, Marker(IncidentSubject(cfg.keyOf(a), fingerprint)), b);
    }
  }

  lemma ClearedView(cfg: Config, env: Env, aliases: set<string>, box: Box, a: string, b: string)
    requires Setting(cfg, env, aliases) && a in aliases && b in aliases && P(cfg, box, a) && P(cfg, box, b)
    ensures var (c, ok) := Cleared(env, box, cfg.keyOf(a));
      && P(cfg, c, b)
      && (a != b ==> V(cfg, c, b) == V(cfg, box, b))
      && (a == b ==>
        && Step(V(cfg, box, b), V(cfg, c, b), AutoClear(V(cfg, box, b)), ok)
        && V(cfg, c, b).emails == V(cfg, box, b).emails)
  {
    LookedView(cfg, env, aliases, box, a, b);
    var (c, answer) := Looked(env, box, cfg.keyOf(a));
    if answer.Some? && answer.value.Some? {
      ResolvedSeen(cfg, env, aliases, a, b, V(cfg, c, b));
      SentView(cfg, env, aliases, c, Marker(ResolvedSubject(cfg.keyOf(a))), b);
    }
  }

  lemma MailView(cfg: Config, env: Env, aliases: set<string>, box: Box, a: string, kind: Kind, fingerprint: string,
      b: string)
    requires Setting(cfg, env, aliases) && a in aliases && b in aliases && P(cfg, box, b) && !kind.Incident?
    ensures var (c, ok) := Sent(env, box, AlertMail(cfg, a, kind, fingerprint));
      && P(cfg, c, b)
      && (a != b ==> V(cfg, c, b) == V(cfg, box, b))
      && (a == b ==> Step(V(cfg, box, b), V(cfg, c, b), AutoMail(V(cfg, box, b), kind, fingerprint), ok)
                     && Incidents(V(cfg, c, b).emails) == Incidents(V(cfg, box, b).emails))
  {
    AlertSeen(cfg, env, aliases, a, kind, fingerprint, b, V(cfg, box, b));
    SentView(cfg, env, aliases, box, AlertMail(cfg, a, kind, fingerprint), b);
    IncidentsLast(V(cfg, box, b).emails, (kind, fingerprint));
  }

  lemma RecoveryView(cfg: Config, env: Env, aliases: set<string>, box: Box, o: TargetOutcome, r: Report, b: string)
    requires Setting(cfg, env, aliases) && o.alias in aliases && b in aliases && P(cfg, box, o.alias) && P(cfg, box, b)
    requires o.IsRecovery()
    ensures var (c, report) := ProcessRecovery(cfg, env, box, o, r);
      && P(cfg, c, b)
      && (o.alias != b ==> V(cfg, c, b) == V(cfg, box, b))
      && (o.alias == b ==> Step(V(cfg, box, b), V(cfg, c, b), Auto(cfg, V(cfg, box, b), o), report.Some?))
  {
    var fingerprint := Fingerprint(cfg, o.condition);
    MailView(cfg, env, aliases, box, o.alias, Recovery, fingerprint, b);
    MailView(cfg, env, aliases, box, o.alias, Recovery, fingerprint, o.alias);
    var (c, sent) := Sent(env, box, AlertMail(cfg, o.alias, Recovery, fingerprint));
    if sent && cfg.store { ClearedView(cfg, env, aliases, c, o.alias, b); }
  }

  lemma ResolveView(cfg: Config, env: Env, aliases: set<string>, box: Box, a: string, fingerprint: string, mail: bool,
      r: Report, b: string)
    requires Setting(cfg, env, aliases) && a in aliases && b in aliases && P(cfg, box, a) && P(cfg, box, b)
    ensures var (c, report) := Resolve(cfg, env, box, a, fingerprint, mail, r);
      var v := V(cfg, box, b);
      && P(cfg, c, b)
      && (a != b ==> V(cfg, c, b) == v)
      && (a == b ==> Step(v, V(cfg, c, b), AutoClear(if mail then AutoMail(v, Resolved, fingerprint) else v),
        report.Some?))
  {
    if mail {
      MailView(cfg, env, aliases, box, a, Resolved, fingerprint, b);
      MailView(cfg, env, aliases, box, a, Resolved, fingerprint, a);
    }
    var (c, sent) := if mail then Sent(env, box, AlertMail(cfg, a, Resolved, fingerprint)) else (box, true);
    if sent { ClearedView(cfg, env, aliases, c, a, b); }
  }

  lemma FingerprintShape(cfg: Config, env: Env, aliases: set<string>, condition: Option<string>)
    requires Setting(cfg, env, aliases)
    ensures IsFingerprint(Fingerprint(cfg, condition))
  {
  }

  /** One target's processing touches no other alias, and its own alias follows the automaton. */
  lemma OneView(cfg: Config, env: Env, aliases: set<string>, box: Box, o: TargetOutcome, r: Report, b: string)
    requires Setting(cfg, env, aliases) && o.alias in aliases && b in aliases && P(cfg, box, o.alias) && P(cfg, box, b)
    ensures var (c, report) := ProcessOne(cfg, env, box, o, r);
      && P(cfg, c, b)
      && (o.alias != b ==> V(cfg, c, b) == V(cfg, box, b))
      && (o.alias == b ==> Step(V(cfg, box, b), V(cfg, c, b), Auto(cfg, V(cfg, box, b), o), report.Some?))
  {
    var a, fingerprint := o.alias, Fingerprint(cfg, o.condition);
    FingerprintShape(cfg, env, aliases, o.condition);
    if o.IsRecovery() {
      RecoveryView(cfg, env, aliases, box, o, r, b);
    } else if o.IsFailure() {
      FailureView(cfg, env, aliases, box, o, r, b);
    } else if o.IsPassiveHealthy() && cfg.store {
      LookedView(cfg, env, aliases, box, a, b);
      var (c, answer) := Looked(env, box, cfg.keyOf(a));
      if answer.Some? { ResolveView(cfg, env, aliases, c, a, fingerprint, cfg.selfhosted, r, b); }
    }
  }

  lemma FailureView(cfg: Config, env: Env, aliases: set<string>, box: Box, o: TargetOutcome, r: Report, b: string)
    requires Setting(cfg, env, aliases) && o.alias in aliases && b in aliases && P(cfg, box, o.alias) && P(cfg, box, b)
    requires o.IsFailure()
    ensures var (c, report) := ProcessFailure(cfg, env, box, o, r);
      && P(cfg, c, b)
      && (o.alias != b ==> V(cfg, c, b) == V(cfg, box, b))
      && (o.alias == b ==> Step(V(cfg, box, b), V(cfg, c, b), Auto(cfg, V(cfg, box, b), o), report.Some?))
  {
    var a, fingerprint := o.alias, Fingerprint(cfg, o.condition);
    FingerprintShape(cfg, env, aliases, o.condition);
    var c := box;
    if cfg.store {
      LookedView(cfg, env, aliases, box, a, b);
      c := Looked(env, box, cfg.keyOf(a)).0;
    }
    AnnounceView(cfg, env, aliases, c, a, fingerprint, r, b);
  }

  // ----- one run

  ghost predicate AllProper(cfg: Config, box: Box, aliases: set<string>) {
    forall a | a in aliases :: P(cfg, box, a)
  }

  /** The targets of a run are watched aliases, never the host's own. */
  ghost predicate Watched(outcomes: seq<TargetOutcome>, aliases: set<string>) {
    forall i | 0 <= i < |outcomes| :: outcomes[i].alias in aliases && outcomes[i].alias != HOST_ALIAS
  }

  function AutoTargets(cfg: Config, v: View, outcomes: seq<TargetOutcome>, alias: string): View
    decreases |outcomes|
  {
    if outcomes == [] then v
    else AutoTargets(cfg, if outcomes[0].alias == alias then Auto(cfg, v, outcomes[0]) else v, outcomes[1..], alias)
  }

  function AutoHost(cfg: Config, v: View, down: bool): View {
    if down then if cfg.store && v.active.Some? then v else AutoAnnounce(cfg, v, "")
    else if cfg.store && v.active.Some? then AutoClear(AutoMail(v, Resolved, ""))
    else v
  }

  /** What one complete run does to an alias. */
  function AutoRun(cfg: Config, v: View, outcomes: seq<TargetOutcome>, alias: string): View {
    if alias == HOST_ALIAS then if cfg.selfhosted then AutoHost(cfg, v, HostDown(outcomes)) else v
    else if cfg.selfhosted && HostDown(outcomes) then v
    else AutoTargets(cfg, v, outcomes, alias)
  }

  lemma {:induction false} TargetsView(cfg: Config, env: Env, aliases: set<string>, box: Box,
      outcomes: seq<TargetOutcome>, r: Report, b: string)
    requires Setting(cfg, env, aliases) && b in aliases && AllProper(cfg, box, aliases) && Watched(outcomes, aliases)
    ensures var (c, report) := ProcessTargets(cfg, env, box, outcomes, r);
      && AllProper(cfg, c, aliases)
      && (Justified(V(cfg, box, b)) ==> Justified(V(cfg, c, b)))
      && (report.Some? ==> V(cfg, c, b) == AutoTargets(cfg, V(cfg, box, b), outcomes, b))
      && (b == HOST_ALIAS ==> V(cfg, c, b) == V(cfg, box, b))
    decreases |outcomes|
  {
    if outcomes != [] {
      var (c, report) := ProcessOne(cfg, env, box, outcomes[0], r);
      forall a | a in aliases ensures P(cfg, c, a) { OneView(cfg, env, aliases, box, outcomes[0], r, a); }
      OneView(cfg, env, aliases, box, outcomes[0], r, b);
      if report.Some? {
        TargetsView(cfg, env, aliases, c, outcomes[1..], report.value, b);
      }
    }
  }

  lemma HostView(cfg: Config, env: Env, aliases: set<string>, box: Box, down: bool, r: Report, b: string)
    requires Setting(cfg, env, aliases) && b in aliases && P(cfg, box, HOST_ALIAS) && P(cfg, box, b)
    ensures var (c, report) := ProcessHost(cfg, env, box, down, r);
      && P(cfg, c, b)
      && (b != HOST_ALIAS ==> V(cfg, c, b) == V(cfg, box, b))
      && (b == HOST_ALIAS ==> Step(V(cfg, box, b), V(cfg, c, b), AutoHost(cfg, V(cfg, box, b), down), report.Some?))
  {
    var h := HOST_ALIAS;
    if cfg.store { LookedView(cfg, env, aliases, box, h, b); }
    var (c, answer) := if cfg.store then Looked(env, box, cfg.keyOf(h)) else (box, Some(None));
    if answer.Some? && down && answer.value.None? {
      AnnounceView(cfg, env, aliases, c, h, "", r, b);
    } else if answer.Some? && !down && answer.value.Some? {
      ResolveView(cfg, env, aliases, c, h, "", true, r, b);
    }
  }

  /** One run: a complete one follows the automaton, an aborted one still announces before it opens. */
  lemma RunView(cfg: Config, env: Env, aliases: set<string>, box: Box, outcomes: seq<TargetOutcome>, b: string)
    requires Setting(cfg, env, aliases) && b in aliases && AllProper(cfg, box, aliases) && Watched(outcomes, aliases)
    ensures var (c, report) := Processed(cfg, env, box, outcomes);
      && AllProper(cfg, c, aliases)
      && (Justified(V(cfg, box, b)) ==> Justified(V(cfg, c, b)))
      && (report.Some? ==> V(cfg, c, b) == AutoRun(cfg, V(cfg, box, b), outcomes, b))
  {
    if cfg.selfhosted {
      var (c, report) := ProcessHost(cfg, env, box, HostDown(outcomes), EMPTY_REPORT);
      forall a | a in aliases ensures P(cfg, c, a) {
        HostView(cfg, env, aliases, box, HostDown(outcomes), EMPTY_REPORT, a);
      }
      HostView(cfg, env, aliases, box, HostDown(outcomes), EMPTY_REPORT, b);
      if report.Some? && !HostDown(outcomes) {
        TargetsView(cfg, env, aliases, c, outcomes, report.value, b);
      }
    } else {
      TargetsView(cfg, env, aliases, box, outcomes, EMPTY_REPORT, b);
      if b == HOST_ALIAS { HostUntouched(cfg, V(cfg, box, b), outcomes, aliases); }
    }
  }

  lemma {:induction false} HostUntouched(cfg: Config, v: View, outcomes: seq<TargetOutcome>, aliases: set<string>)
    requires Watched(outcomes, aliases)
    ensures AutoTargets(cfg, v, outcomes, HOST_ALIAS) == v
    decreases |outcomes|
  {
    if outcomes != [] {
      assert outcomes[0].alias != HOST_ALIAS;
      HostUntouched(cfg, v, outcomes[1..], aliases);
    }
  }

  // ----- any sequence of runs

  function Runs(cfg: Config, env: Env, box: Box, runs: seq<seq<TargetOutcome>>): Box
    decreases |runs|
  {
    if runs == [] then box else Runs(cfg, env, Processed(cfg, env, box, runs[0]).0, runs[1..])
  }

  /** How many of the runs were cut short by a failed call. */
  function Aborted(cfg: Config, env: Env, box: Box, runs: seq<seq<TargetOutcome>>): nat
    decreases |runs|
  {
    if runs == [] then 0
    else
      var (c, report) := Processed(cfg, env, box, runs[0]);
      (if report.None? then 1 else 0) + Aborted(cfg, env, c, runs[1..])
  }

  ghost predicate AllWatched(runs: seq<seq<TargetOutcome>>, aliases: set<string>) {
    forall i | 0 <= i < |runs| :: Watched(runs[i], aliases)
  }

  function AutoRuns(cfg: Config, v: View, runs: seq<seq<TargetOutcome>>, alias: string): View
    decreases |runs|
  {
    if runs == [] then v else AutoRuns(cfg, AutoRun(cfg, v, runs[0], alias), runs[1..], alias)
  }

  /**
   * Whatever sends and listings fail, in every reachable inbox the condition the store
   * reports as open was announced by an email since the last resolved marker.
   */
  lemma {:induction false} OpenIsAnnounced(cfg: Config, env: Env, aliases: set<string>, box: Box,
      runs: seq<seq<TargetOutcome>>, b: string)
    requires Setting(cfg, env, aliases) && b in aliases && AllProper(cfg, box, aliases) && AllWatched(runs, aliases)
    requires Justified(V(cfg, box, b))
    ensures var log := Runs(cfg, env, box, runs).log;
      Lookup(log, cfg.keyOf(b)).Some? ==> Lookup(log, cfg.keyOf(b)).value in ViewOf(log, b, cfg.keyOf(b)).announced
    decreases |runs|
  {
    if runs == [] {
      ViewActive(box.log, b, cfg.keyOf(b));
    } else {
      assert Watched(runs[0], aliases);
      RunView(cfg, env, aliases, box, runs[0], b);
      OpenIsAnnounced(cfg, env, aliases, Processed(cfg, env, box, runs[0]).0, runs[1..], b);
    }
  }

  /** What `announced` means in the log: an incident email with no resolved marker of the key behind it. */
  lemma {:induction false} AnnouncedInLog(log: seq<Mail>, alias: string, key: string, fingerprint: string)
      returns (i: nat)
    requires fingerprint in ViewOf(log, alias, key).announced
    ensures i < |log| && log[i].Alert? && log[i].alias == alias && log[i].kind == Incident
      && log[i].fingerprint == fingerprint
    ensures forall j | i < j < |log| && !log[j].Alert? :: Read(log[j].subject, key) != Closed
  {
    var n := |log| - 1;
    if log[n].Alert? && log[n].alias == alias && log[n].kind == Incident && log[n].fingerprint == fingerprint {
      i := n;
    } else {
      i := AnnouncedInLog(log[..n], alias, key, fingerprint);
      assert forall j | 0 <= j < n :: log[..n][j] == log[j];
    }
  }

  // ----- without faults

  ghost predicate FaultFree(env: Env) {
    forall n: nat :: env.faults(n) == Fine
  }

  lemma {:induction false} TargetsComplete(cfg: Config, env: Env, box: Box, outcomes: seq<TargetOutcome>, r: Report)
    requires FaultFree(env)
    ensures ProcessTargets(cfg, env, box, outcomes, r).1.Some?
    decreases |outcomes|
  {
    if outcomes != [] {
      var (c, report) := ProcessOne(cfg, env, box, outcomes[0], r);
      assert report.Some?;
      TargetsComplete(cfg, env, c, outcomes[1..], report.value);
    }
  }

  lemma RunCompletes(cfg: Config, env: Env, box: Box, outcomes: seq<TargetOutcome>)
    requires FaultFree(env)
    ensures Processed(cfg, env, box, outcomes).1.Some?
  {
    var (c, report) := ProcessHost(cfg, env, box, HostDown(outcomes), EMPTY_REPORT);
    assert report.Some?;
    TargetsComplete(cfg, env, box, outcomes, EMPTY_REPORT);
    TargetsComplete(cfg, env, c, outcomes, report.value);
  }

  /** Without faults, any sequence of runs is, for every alias, exactly its automaton. */
  lemma {:induction false} RunsRefineAutomaton(cfg: Config, env: Env, aliases: set<string>, box: Box,
      runs: seq<seq<TargetOutcome>>, b: string)
    requires Setting(cfg, env, aliases) && b in aliases && AllProper(cfg, box, aliases) && AllWatched(runs, aliases)
    requires FaultFree(env)
    ensures V(cfg, Runs(cfg, env, box, runs), b) == AutoRuns(cfg, V(cfg, box, b), runs, b)
    decreases |runs|
  {
    if runs != [] {
      assert Watched(runs[0], aliases);
      RunView(cfg, env, aliases, box, runs[0], b);
      RunCompletes(cfg, env, box, runs[0]);
      RunsRefineAutomaton(cfg, env, aliases, Processed(cfg, env, box, runs[0]).0, runs[1..], b);
    }
  }

  /** What identifies a condition in a marker: its hash, or nothing when there is none to hash. */
  predicate Identifies(cfg: Config, condition: Option<string>, fingerprint: string) {
    if condition.Some? && condition.value != "" then fingerprint == cfg.hash(condition.value) else fingerprint == ""
  }

  lemma FingerprintIdentifies(cfg: Config, condition: Option<string>, fingerprint: string)
    ensures Identifies(cfg, condition, fingerprint) <==> fingerprint == Fingerprint(cfg, condition)
  {
  }

  /**
   * The automaton's rule for incident emails: exactly when the target failed and its condition, as
   * it is hashed, is not the open one.
   */
  lemma EmailsExactlyOnChange(cfg: Config, v: View, o: TargetOutcome, fingerprint: string)
    requires cfg.store && Identifies(cfg, o.condition, fingerprint)
    ensures var w := Auto(cfg, v, o);
      && Incidents(w.emails) == Incidents(v.emails)
           + (if !o.recovered && !o.deferred && v.active != Some(fingerprint) then 1 else 0)
      && (!o.recovered && !o.deferred ==> w.active == Some(fingerprint))
      && (o.recovered && (o.action != NoAction || !o.deferred) ==> w.active == None)
      && (o.deferred && !o.recovered ==> w == v)
      && (v.active == None && o.recovered && o.action == NoAction && !o.deferred ==> w == v)
  {
    FingerprintIdentifies(cfg, o.condition, fingerprint);
    AutoIncidents(cfg, v, o);
    AutoActive(cfg, v, o);
  }

  /** The other emails: one for each recovery by an action, and in self-hosted mode one for an incident that passed. */
  lemma OtherEmails(cfg: Config, v: View, o: TargetOutcome)
    ensures var w := Auto(cfg, v, o);
      && MailsOf(w.emails, Recovery) == MailsOf(v.emails, Recovery)
           + (if o.recovered && o.action != NoAction then 1 else 0)
      && MailsOf(w.emails, Resolved) == MailsOf(v.emails, Resolved)
           + (if o.recovered && o.action == NoAction && !o.deferred && cfg.store && cfg.selfhosted && v.active.Some?
              then 1 else 0)
  {
    var fingerprint := Fingerprint(cfg, o.condition);
    var kind := if o.IsRecovery() then Recovery else if o.IsFailure() then Incident else Resolved;
    MailsLast(v.emails, (kind, fingerprint), Recovery);
    MailsLast(v.emails, (kind, fingerprint), Resolved);
  }

  lemma AutoIncidents(cfg: Config, v: View, o: TargetOutcome)
    ensures var known := cfg.store && v.active == Some(Fingerprint(cfg, o.condition));
      Incidents(Auto(cfg, v, o).emails) == Incidents(v.emails) + if o.IsFailure() && !known then 1 else 0
  {
    var fingerprint := Fingerprint(cfg, o.condition);
    var kind := if o.IsRecovery() then Recovery else if o.IsFailure() then Incident else Resolved;
    IncidentsLast(v.emails, (kind, fingerprint));
  }

  lemma AutoActive(cfg: Config, v: View, o: TargetOutcome)
    requires cfg.store
    ensures o.IsFailure() ==> Auto(cfg, v, o).active == Some(Fingerprint(cfg, o.condition))
    ensures o.IsRecovery() || o.IsPassiveHealthy() ==> Auto(cfg, v, o).active == None
    ensures o.deferred && !o.recovered ==> Auto(cfg, v, o) == v
    ensures v.active == None && o.IsPassiveHealthy() ==> Auto(cfg, v, o) == v
  {
  }

  // ----- the host roll-up

  /** Host-down and host-resolved emails in turn, host-down first; the last is host-down while it is open. */
  predicate Alternates(v: View) {
    && (forall i | 0 <= i < |v.emails| :: v.emails[i].0 == if i % 2 == 0 then Incident else Resolved)
    && (v.active.Some? <==> |v.emails| % 2 == 1)
  }

  lemma {:induction false} HostAlternates(cfg: Config, v: View, runs: seq<seq<TargetOutcome>>)
    requires cfg.store && Alternates(v)
    ensures Alternates(AutoRuns(cfg, v, runs, HOST_ALIAS))
    decreases |runs|
  {
    if runs != [] { HostAlternates(cfg, AutoRun(cfg, v, runs[0], HOST_ALIAS), runs[1..]); }
  }

  /** Host emails alternate over every fault-free sequence of runs. */
  lemma HostEmailsAlternate(cfg: Config, env: Env, aliases: set<string>, box: Box, runs: seq<seq<TargetOutcome>>)
    requires Setting(cfg, env, aliases) && AllProper(cfg, box, aliases) && AllWatched(runs, aliases)
    requires FaultFree(env) && cfg.store && Alternates(V(cfg, box, HOST_ALIAS))
    ensures Alternates(V(cfg, Runs(cfg, env, box, runs), HOST_ALIAS))
  {
    RunsRefineAutomaton(cfg, env, aliases, box, runs, HOST_ALIAS);
    HostAlternates(cfg, V(cfg, box, HOST_ALIAS), runs);
  }

  /** A host-down run, complete or cut short, sends at most one email and touches no target. */
  lemma HostDownRun(cfg: Config, env: Env, aliases: set<string>, box: Box, outcomes: seq<TargetOutcome>, b: string)
    requires Setting(cfg, env, aliases) && b in aliases && AllProper(cfg, box, aliases)
    requires cfg.selfhosted && HostDown(outcomes)
    ensures var c := Processed(cfg, env, box, outcomes).0;
      if b == HOST_ALIAS then |V(cfg, c, b).emails| <= |V(cfg, box, b).emails| + 1
      else V(cfg, c, b) == V(cfg, box, b)
  {
    HostView(cfg, env, aliases, box, true, EMPTY_REPORT, b);
    if b == HOST_ALIAS { HostDownEmails(cfg, env, aliases, box); }
  }

  lemma HostDownEmails(cfg: Config, env: Env, aliases: set<string>, box: Box)
    requires Setting(cfg, env, aliases) && AllProper(cfg, box, aliases)
    ensures |V(cfg, ProcessHost(cfg, env, box, true, EMPTY_REPORT).0, HOST_ALIAS).emails|
         <= |V(cfg, box, HOST_ALIAS).emails| + 1
  {
    var h := HOST_ALIAS;
    var mail := AlertMail(cfg, h, Incident, "");
    if cfg.store { LookedView(cfg, env, aliases, box, h, h); }
    var (c, answer) := if cfg.store then Looked(env, box, cfg.keyOf(h)) else (box, Some(None));
    AlertSeen(cfg, env, aliases, h, Incident, "", h, V(cfg, c, h));
    SentView(cfg, env, aliases, c, mail, h);
    var (d, sent) := Sent(env, c, mail);
    IncidentSeen(cfg, env, aliases, h, "", h, V(cfg, d, h));
    SentView(cfg, env, aliases, d, Marker(IncidentSubject(cfg.keyOf(h), "")), h);
  }

  // ----- a condition that stays the same

  /** Every outcome of the alias in the run is a failure with this fingerprint. */
  ghost predicate Constant(cfg: Config, outcomes: seq<TargetOutcome>, alias: string, fingerprint: string) {
    forall i | 0 <= i < |outcomes| && outcomes[i].alias == alias ::
      && !outcomes[i].recovered && !outcomes[i].deferred && Identifies(cfg, outcomes[i].condition, fingerprint)
  }

  /** One while the condition is not the open one, and so may still be announced. */
  function Unknown(v: View, fingerprint: string): nat {
    if v.active == Some(fingerprint) then 0 else 1
  }

  lemma {:induction false} StretchTargets(cfg: Config, env: Env, aliases: set<string>, box: Box,
      outcomes: seq<TargetOutcome>, r: Report, a: string, fingerprint: string)
    requires Setting(cfg, env, aliases) && a in aliases && AllProper(cfg, box, aliases) && Watched(outcomes, aliases)
    requires cfg.store && Constant(cfg, outcomes, a, fingerprint)
    ensures var (c, report) := ProcessTargets(cfg, env, box, outcomes, r);
      Incidents(V(cfg, c, a).emails) + Unknown(V(cfg, c, a), fingerprint)
        <= Incidents(V(cfg, box, a).emails) + Unknown(V(cfg, box, a), fingerprint) + if report.None? then 1 else 0
    decreases |outcomes|
  {
    if outcomes != [] {
      var o := outcomes[0];
      var (c, report) := ProcessOne(cfg, env, box, o, r);
      forall b | b in aliases ensures P(cfg, c, b) { OneView(cfg, env, aliases, box, o, r, b); }
      OneView(cfg, env, aliases, box, o, r, a);
      OneInStretch(cfg, env, aliases, box, o, r, a, fingerprint);
      if report.Some? {
        StretchTargets(cfg, env, aliases, c, outcomes[1..], report.value, a, fingerprint);
      }
    }
  }

  lemma OneInStretch(cfg: Config, env: Env, aliases: set<string>, box: Box, o: TargetOutcome, r: Report, a: string,
      fingerprint: string)
    requires Setting(cfg, env, aliases) && o.alias in aliases && a in aliases && AllProper(cfg, box, aliases)
      && cfg.store
    requires o.alias == a ==> !o.recovered && !o.deferred && Identifies(cfg, o.condition, fingerprint)
    ensures var (c, report) := ProcessOne(cfg, env, box, o, r);
      Incidents(V(cfg, c, a).emails) + Unknown(V(cfg, c, a), fingerprint)
        <= Incidents(V(cfg, box, a).emails) + Unknown(V(cfg, box, a), fingerprint) + if report.None? then 1 else 0
  {
    OneView(cfg, env, aliases, box, o, r, a);
    if o.alias == a {
      var v := V(cfg, box, a);
      FingerprintIdentifies(cfg, o.condition, fingerprint);
      IncidentsLast(v.emails, (Incident, fingerprint));
      LookedView(cfg, env, aliases, box, a, a);
    }
  }

  /** One constant failing condition is announced at most once, plus once for each run cut short. */
  lemma {:induction false} StretchBound(cfg: Config, env: Env, aliases: set<string>, box: Box,
      runs: seq<seq<TargetOutcome>>, a: string, fingerprint: string)
    requires Setting(cfg, env, aliases) && a in aliases && a != HOST_ALIAS && AllProper(cfg, box, aliases)
      && AllWatched(runs, aliases)
    requires cfg.store && forall i | 0 <= i < |runs| :: Constant(cfg, runs[i], a, fingerprint)
    ensures Incidents(V(cfg, Runs(cfg, env, box, runs), a).emails)
      + Unknown(V(cfg, Runs(cfg, env, box, runs), a), fingerprint)
         <= Incidents(V(cfg, box, a).emails) + Unknown(V(cfg, box, a), fingerprint) + Aborted(cfg, env, box, runs)
    ensures Incidents(V(cfg, Runs(cfg, env, box, runs), a).emails)
         <= Incidents(V(cfg, box, a).emails) + 1 + Aborted(cfg, env, box, runs)
    decreases |runs|
  {
    if runs != [] {
      assert Watched(runs[0], aliases) && Constant(cfg, runs[0], a, fingerprint);
      RunView(cfg, env, aliases, box, runs[0], a);
      StretchRun(cfg, env, aliases, box, runs[0], a, fingerprint);
      StretchBound(cfg, env, aliases, Processed(cfg, env, box, runs[0]).0, runs[1..], a, fingerprint);
    }
  }

  lemma StretchRun(cfg: Config, env: Env, aliases: set<string>, box: Box, outcomes: seq<TargetOutcome>, a: string,
      fingerprint: string)
    requires Setting(cfg, env, aliases) && a in aliases && a != HOST_ALIAS && AllProper(cfg, box, aliases)
      && Watched(outcomes, aliases)
    requires cfg.store && Constant(cfg, outcomes, a, fingerprint)
    ensures var (c, report) := Processed(cfg, env, box, outcomes);
      Incidents(V(cfg, c, a).emails) + Unknown(V(cfg, c, a), fingerprint)
        <= Incidents(V(cfg, box, a).emails) + Unknown(V(cfg, box, a), fingerprint) + if report.None? then 1 else 0
  {
    if cfg.selfhosted {
      var down := HostDown(outcomes);
      var (c, report) := ProcessHost(cfg, env, box, down, EMPTY_REPORT);
      forall b | b in aliases ensures P(cfg, c, b) { HostView(cfg, env, aliases, box, down, EMPTY_REPORT, b); }
      HostView(cfg, env, aliases, box, down, EMPTY_REPORT, a);
      if report.Some? && !down { StretchTargets(cfg, env, aliases, c, outcomes, report.value, a, fingerprint); }
    } else {
      StretchTargets(cfg, env, aliases, box, outcomes, EMPTY_REPORT, a, fingerprint);
    }
  }
}
