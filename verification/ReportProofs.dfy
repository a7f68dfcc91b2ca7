/** What the report of a complete run says about each alias. */
module ReportProofs {
  import opened Wrappers
  import State
  import opened Outcomes
  import opened IncidentLog
  import opened Notify
  import opened NotifyProofs

  /** How often an alias is listed. */
  datatype Tally = Tally(recoveries: nat, incidents: nat, suppressed: nat, cleared: nat) {
    function Plus(t: Tally): Tally {
      Tally(recoveries + t.recoveries, incidents + t.incidents, suppressed + t.suppressed, cleared + t.cleared)
    }
  }

  const NONE := Tally(0, 0, 0, 0)

  function TallyOf(r: Report, b: string): Tally {
    Tally(multiset(r.recoveries)[b], multiset(r.incidents)[b], multiset(r.suppressed)[b], multiset(r.cleared)[b])
  }

  /** How an alias is listed. */
  datatype Entry = AsRecovery | AsIncident | AsSuppressed | AsCleared | Unlisted

  function Listed(r: Report, entry: Entry, a: string): Report {
    match entry
    case AsRecovery => r.(recoveries := r.recoveries + [a])
    case AsIncident => r.(incidents := r.incidents + [a])
    case AsSuppressed => r.(suppressed := r.suppressed + [a])
    case AsCleared => r.(cleared := r.cleared + [a])
    case Unlisted => r
  }

  function Unit(entry: Entry): Tally {
    match entry
    case AsRecovery => Tally(1, 0, 0, 0)
    case AsIncident => Tally(0, 1, 0, 0)
    case AsSuppressed => Tally(0, 0, 1, 0)
    case AsCleared => Tally(0, 0, 0, 1)
    case Unlisted => NONE
  }

  /** How an outcome is listed, given what is open before it. */
  function EntryOf(cfg: Config, o: TargetOutcome, open: Option<string>): Entry {
    if o.IsRecovery() then AsRecovery
    else if o.IsFailure() then
      if cfg.store && open == Some(Fingerprint(cfg, o.condition)) then AsSuppressed else AsIncident
    else if o.IsPassiveHealthy() && cfg.store && open.Some? then AsCleared
    else Unlisted
  }

  function HostEntry(cfg: Config, down: bool, open: Option<string>): Entry {
    var known := cfg.store && open.Some?;
    if down then if known then AsSuppressed else AsIncident
    else if known then AsCleared else Unlisted
  }

  function OneTally(cfg: Config, v: View, o: TargetOutcome): Tally {
    Unit(EntryOf(cfg, o, v.active))
  }

  function TargetsTally(cfg: Config, v: View, outcomes: seq<TargetOutcome>, b: string): Tally
    decreases |outcomes|
  {
    if outcomes == [] then NONE
    else if outcomes[0].alias != b then TargetsTally(cfg, v, outcomes[1..], b)
    else OneTally(cfg, v, outcomes[0]).Plus(TargetsTally(cfg, Auto(cfg, v, outcomes[0]), outcomes[1..], b))
  }

  function OwnTally(cfg: Config, v: View, o: TargetOutcome, b: string): Tally {
    if o.alias == b then OneTally(cfg, v, o) else NONE
  }

  function OwnAuto(cfg: Config, v: View, o: TargetOutcome, b: string): View {
    if o.alias == b then Auto(cfg, v, o) else v
  }

  function HostTally(cfg: Config, v: View, down: bool): Tally {
    Unit(HostEntry(cfg, down, v.active))
  }

  function RunTally(cfg: Config, v: View, outcomes: seq<TargetOutcome>, b: string): Tally {
    if b == HOST_ALIAS then if cfg.selfhosted then HostTally(cfg, v, HostDown(outcomes)) else NONE
    else if cfg.selfhosted && HostDown(outcomes) then NONE
    else TargetsTally(cfg, v, outcomes, b)
  }

  // ----- the report is that tally

  lemma CountAppend(names: seq<string>, a: string, b: string)
    ensures multiset(names + [a])[b] == multiset(names)[b] + if a == b then 1 else 0
  {
  }

  lemma ListedTally(r: Report, entry: Entry, a: string, b: string)
    ensures TallyOf(Listed(r, entry, a), b) == TallyOf(r, b).Plus(if a == b then Unit(entry) else NONE)
  {
    var t := TallyOf(r, b);
    if a == b {
      match entry
      case AsRecovery => CountAppend(r.recoveries, a, b);
      case AsIncident => CountAppend(r.incidents, a, b);
      case AsSuppressed => CountAppend(r.suppressed, a, b);
      case AsCleared => CountAppend(r.cleared, a, b);
      case Unlisted => PlusNone(t);
    } else {
      PlusNone(t);
      OthersUnchanged(r, entry, a, b);
    }
  }

  lemma OthersUnchanged(r: Report, entry: Entry, a: string, b: string)
    requires a != b
    ensures TallyOf(Listed(r, entry, a), b) == TallyOf(r, b)
  {
    match entry
    case AsRecovery => CountAppend(r.recoveries, a, b);
    case AsIncident => CountAppend(r.incidents, a, b);
    case AsSuppressed => CountAppend(r.suppressed, a, b);
    case AsCleared => CountAppend(r.cleared, a, b);
    case Unlisted =>
  }

  /** The store's answer when it is asked; nothing is open without a store. */
  function Answered(cfg: Config, env: Env, box: Box, alias: string): Option<Option<string>> {
    if cfg.store then Looked(env, box, cfg.keyOf(alias)).1 else Some(None)
  }

  lemma OneEntry(cfg: Config, env: Env, box: Box, o: TargetOutcome, r: Report)
    ensures var (c, report) := ProcessOne(cfg, env, box, o, r);
      var answer := Answered(cfg, env, box, o.alias);
      report.Some? && !o.IsRecovery() && (o.IsFailure() || o.IsPassiveHealthy()) ==>
        answer.Some? && report.value == Listed(r, EntryOf(cfg, o, answer.value), o.alias)
    ensures var (c, report) := ProcessOne(cfg, env, box, o, r);
      report.Some? && (o.IsRecovery() || !(o.IsFailure() || o.IsPassiveHealthy())) ==>
        report.value == Listed(r, EntryOf(cfg, o, None), o.alias)
  {
  }

  lemma OneReport(cfg: Config, env: Env, aliases: set<string>, box: Box, o: TargetOutcome, r: Report, b: string)
    requires Setting(cfg, env, aliases) && o.alias in aliases && b in aliases && P(cfg, box, o.alias) && P(cfg, box, b)
    ensures var (c, report) := ProcessOne(cfg, env, box, o, r);
      report.Some? ==> TallyOf(report.value, b) == TallyOf(r, b).Plus(OwnTally(cfg, V(cfg, box, b), o, b))
  {
    OneEntry(cfg, env, box, o, r);
    LookedView(cfg, env, aliases, box, o.alias, b);
    ListedTally(r, EntryOf(cfg, o, V(cfg, box, o.alias).active), o.alias, b);
  }

  lemma {:induction false} TargetsReport(cfg: Config, env: Env, aliases: set<string>, box: Box,
      outcomes: seq<TargetOutcome>, r: Report, b: string)
    requires Setting(cfg, env, aliases) && b in aliases && AllProper(cfg, box, aliases) && Watched(outcomes, aliases)
    ensures var (c, report) := ProcessTargets(cfg, env, box, outcomes, r);
      report.Some? ==> TallyOf(report.value, b) == TallyOf(r, b).Plus(TargetsTally(cfg, V(cfg, box, b), outcomes, b))
    decreases |outcomes|
  {
    if outcomes == [] {
      PlusNone(TallyOf(r, b));
    } else {
      var o := outcomes[0];
      var (c, report) := ProcessOne(cfg, env, box, o, r);
      OneReport(cfg, env, aliases, box, o, r, b);
      ViewsAfterOne(cfg, env, aliases, box, o, r, b);
      if report.Some? {
        TargetsReport(cfg, env, aliases, c, outcomes[1..], report.value, b);
        var v := V(cfg, box, b);
        TallyStep(cfg, v, outcomes, b);
        PlusAssociates(TallyOf(r, b), OwnTally(cfg, v, o, b),
          TargetsTally(cfg, OwnAuto(cfg, v, o, b), outcomes[1..], b));
      }
    }
  }

  lemma TallyStep(cfg: Config, v: View, outcomes: seq<TargetOutcome>, b: string)
    requires outcomes != []
    ensures TargetsTally(cfg, v, outcomes, b)
         == OwnTally(cfg, v, outcomes[0], b).Plus(TargetsTally(cfg, OwnAuto(cfg, v, outcomes[0], b), outcomes[1..], b))
  {
    if outcomes[0].alias != b { PlusNone(TargetsTally(cfg, v, outcomes[1..], b)); }
  }

  lemma PlusNone(t: Tally)
    ensures NONE.Plus(t) == t == t.Plus(NONE)
  {
  }

  lemma PlusAssociates(t: Tally, u: Tally, w: Tally)
    ensures t.Plus(u).Plus(w) == t.Plus(u.Plus(w))
  {
  }

  lemma ViewsAfterOne(cfg: Config, env: Env, aliases: set<string>, box: Box, o: TargetOutcome, r: Report, b: string)
    requires Setting(cfg, env, aliases) && b in aliases && AllProper(cfg, box, aliases) && o.alias in aliases
    ensures var (c, report) := ProcessOne(cfg, env, box, o, r);
      && AllProper(cfg, c, aliases)
      && (report.Some? ==> V(cfg, c, b) == OwnAuto(cfg, V(cfg, box, b), o, b))
  {
    OneView(cfg, env, aliases, box, o, r, b);
    forall a | a in aliases ensures P(cfg, ProcessOne(cfg, env, box, o, r).0, a) {
      OneView(cfg, env, aliases, box, o, r, a);
    }
  }

  lemma HostListedAs(cfg: Config, env: Env, box: Box, down: bool, r: Report)
    ensures var (c, report) := ProcessHost(cfg, env, box, down, r);
      var answer := Answered(cfg, env, box, HOST_ALIAS);
      report.Some? ==> answer.Some? && report.value == Listed(r, HostEntry(cfg, down, answer.value), HOST_ALIAS)
  {
  }

  lemma HostReport(cfg: Config, env: Env, aliases: set<string>, box: Box, down: bool, r: Report, b: string)
    requires Setting(cfg, env, aliases) && b in aliases && AllProper(cfg, box, aliases)
    ensures var (c, report) := ProcessHost(cfg, env, box, down, r);
      report.Some? ==>
        TallyOf(report.value, b)
          == TallyOf(r, b).Plus(if b == HOST_ALIAS then HostTally(cfg, V(cfg, box, b), down) else NONE)
  {
    HostListedAs(cfg, env, box, down, r);
    LookedView(cfg, env, aliases, box, HOST_ALIAS, b);
    ListedTally(r, HostEntry(cfg, down, V(cfg, box, HOST_ALIAS).active), HOST_ALIAS, b);
  }

  lemma {:induction false} HostNotListed(cfg: Config, v: View, outcomes: seq<TargetOutcome>, aliases: set<string>)
    requires Watched(outcomes, aliases)
    ensures TargetsTally(cfg, v, outcomes, HOST_ALIAS) == NONE
    decreases |outcomes|
  {
    if outcomes != [] {
      assert outcomes[0].alias != HOST_ALIAS;
      HostNotListed(cfg, v, outcomes[1..], aliases);
    }
  }

  lemma ViewsAfterHost(cfg: Config, env: Env, aliases: set<string>, box: Box, down: bool, b: string)
    requires Setting(cfg, env, aliases) && b in aliases && AllProper(cfg, box, aliases)
    ensures var c := ProcessHost(cfg, env, box, down, EMPTY_REPORT).0;
      AllProper(cfg, c, aliases) && (b != HOST_ALIAS ==> V(cfg, c, b) == V(cfg, box, b))
  {
    HostView(cfg, env, aliases, box, down, EMPTY_REPORT, b);
    forall a | a in aliases ensures P(cfg, ProcessHost(cfg, env, box, down, EMPTY_REPORT).0, a) {
      HostView(cfg, env, aliases, box, down, EMPTY_REPORT, a);
    }
  }

  lemma NothingListed(b: string)
    ensures TallyOf(EMPTY_REPORT, b) == NONE
  {
  }

  lemma HostListed(cfg: Config, env: Env, aliases: set<string>, box: Box, down: bool, b: string)
    requires Setting(cfg, env, aliases) && b in aliases && AllProper(cfg, box, aliases)
    ensures var (c, report) := ProcessHost(cfg, env, box, down, EMPTY_REPORT);
      report.Some? ==>
        TallyOf(report.value, b) == if b == HOST_ALIAS then HostTally(cfg, V(cfg, box, b), down) else NONE
  {
    HostReport(cfg, env, aliases, box, down, EMPTY_REPORT, b);
    NothingListed(b);
    PlusNone(if b == HOST_ALIAS then HostTally(cfg, V(cfg, box, b), down) else NONE);
  }

  /** The targets' part of a self-hosted run whose host is up. */
  lemma TargetsListed(cfg: Config, env: Env, aliases: set<string>, box: Box, outcomes: seq<TargetOutcome>, b: string)
    requires Setting(cfg, env, aliases) && b in aliases && AllProper(cfg, box, aliases) && Watched(outcomes, aliases)
    ensures var (c, report) := ProcessHost(cfg, env, box, false, EMPTY_REPORT);
      report.Some? && ProcessTargets(cfg, env, c, outcomes, report.value).1.Some? ==>
        TallyOf(ProcessTargets(cfg, env, c, outcomes, report.value).1.value, b)
        == if b == HOST_ALIAS then HostTally(cfg, V(cfg, box, b), false)
          else TargetsTally(cfg, V(cfg, box, b), outcomes, b)
  {
    var (c, report) := ProcessHost(cfg, env, box, false, EMPTY_REPORT);
    HostListed(cfg, env, aliases, box, false, b);
    ViewsAfterHost(cfg, env, aliases, box, false, b);
    if report.Some? {
      TargetsReport(cfg, env, aliases, c, outcomes, report.value, b);
      if b == HOST_ALIAS {
        HostNotListed(cfg, V(cfg, c, b), outcomes, aliases);
        PlusNone(HostTally(cfg, V(cfg, box, b), false));
      } else {
        PlusNone(TargetsTally(cfg, V(cfg, box, b), outcomes, b));
      }
    }
  }

  lemma SelfhostedReport(cfg: Config, env: Env, aliases: set<string>, box: Box, outcomes: seq<TargetOutcome>, b: string)
    requires Setting(cfg, env, aliases) && b in aliases && AllProper(cfg, box, aliases) && Watched(outcomes, aliases)
    requires cfg.selfhosted
    ensures var (c, report) := Processed(cfg, env, box, outcomes);
      report.Some? ==> TallyOf(report.value, b) == RunTally(cfg, V(cfg, box, b), outcomes, b)
  {
    if HostDown(outcomes) {
      HostListed(cfg, env, aliases, box, true, b);
    } else {
      TargetsListed(cfg, env, aliases, box, outcomes, b);
    }
  }

  lemma ReportIsTally(cfg: Config, env: Env, aliases: set<string>, box: Box, outcomes: seq<TargetOutcome>, b: string)
    requires Setting(cfg, env, aliases) && b in aliases && AllProper(cfg, box, aliases) && Watched(outcomes, aliases)
    ensures var (c, report) := Processed(cfg, env, box, outcomes);
      report.Some? ==> TallyOf(report.value, b) == RunTally(cfg, V(cfg, box, b), outcomes, b)
  {
    if cfg.selfhosted {
      SelfhostedReport(cfg, env, aliases, box, outcomes, b);
    } else {
      TargetsReport(cfg, env, aliases, box, outcomes, EMPTY_REPORT, b);
      PlusNone(TargetsTally(cfg, V(cfg, box, b), outcomes, b));
      NothingListed(b);
      if b == HOST_ALIAS { HostNotListed(cfg, V(cfg, box, b), outcomes, aliases); }
    }
  }

  // ----- what the tally means

  function CountOutcomes(outcomes: seq<TargetOutcome>, b: string, failed: bool): nat {
    if outcomes == [] then 0
    else
      var o := outcomes[0];
      (if o.alias == b && (if failed then !o.recovered && !o.deferred else o.recovered && o.action != NoAction)
       then 1 else 0)
      + CountOutcomes(outcomes[1..], b, failed)
  }

  /** One entry for every email, and in self-hosted mode one cleared entry for every "resolved" email. */
  ghost predicate Mailed(cfg: Config, v: View, w: View, t: Tally) {
    && MailsOf(w.emails, Incident) == MailsOf(v.emails, Incident) + t.incidents
    && MailsOf(w.emails, Recovery) == MailsOf(v.emails, Recovery) + t.recoveries
    && MailsOf(w.emails, Resolved) == MailsOf(v.emails, Resolved) + if cfg.selfhosted then t.cleared else 0
  }

  lemma MailsLastAll(emails: seq<(Kind, string)>, e: (Kind, string))
    ensures forall kind :: MailsOf(emails + [e], kind) == MailsOf(emails, kind) + if e.0 == kind then 1 else 0
  {
    forall kind ensures MailsOf(emails + [e], kind) == MailsOf(emails, kind) + if e.0 == kind then 1 else 0 {
      MailsLast(emails, e, kind);
    }
  }

  lemma OneMailed(cfg: Config, v: View, o: TargetOutcome)
    ensures Mailed(cfg, v, Auto(cfg, v, o), OneTally(cfg, v, o))
  {
    var fingerprint := Fingerprint(cfg, o.condition);
    if o.IsRecovery() {
      MailsLastAll(v.emails, (Recovery, fingerprint));
      ClearKeepsMails(AutoMail(v, Recovery, fingerprint));
    } else if o.IsFailure() {
      MailsLastAll(v.emails, (Incident, fingerprint));
    } else {
      OneResolved(cfg, v, o);
    }
  }

  lemma ClearKeepsMails(v: View)
    ensures AutoClear(v).emails == v.emails
  {
  }

  lemma OneResolved(cfg: Config, v: View, o: TargetOutcome)
    requires !o.IsRecovery() && !o.IsFailure()
    ensures Mailed(cfg, v, Auto(cfg, v, o), OneTally(cfg, v, o))
  {
    var fingerprint := Fingerprint(cfg, o.condition);
    if o.IsPassiveHealthy() && cfg.store && v.active.Some? {
      var w := if cfg.selfhosted then AutoMail(v, Resolved, fingerprint) else v;
      assert Auto(cfg, v, o) == AutoClear(w) && OneTally(cfg, v, o) == Tally(0, 0, 0, 1);
      ClearKeepsMails(w);
      if cfg.selfhosted { MailsLastAll(v.emails, (Resolved, fingerprint)); }
    } else {
      assert Auto(cfg, v, o) == v && OneTally(cfg, v, o) == NONE;
    }
  }

  lemma {:induction false} TargetsMailed(cfg: Config, v: View, outcomes: seq<TargetOutcome>, b: string)
    ensures Mailed(cfg, v, AutoTargets(cfg, v, outcomes, b), TargetsTally(cfg, v, outcomes, b))
    decreases |outcomes|
  {
    if outcomes != [] {
      var o := outcomes[0];
      if o.alias == b {
        var w := Auto(cfg, v, o);
        OneMailed(cfg, v, o);
        TargetsMailed(cfg, w, outcomes[1..], b);
        MailedTwice(cfg, v, w, AutoTargets(cfg, w, outcomes[1..], b), OneTally(cfg, v, o),
          TargetsTally(cfg, w, outcomes[1..], b));
      } else {
        TargetsMailed(cfg, v, outcomes[1..], b);
      }
    }
  }

  lemma MailedTwice(cfg: Config, u: View, v: View, w: View, s: Tally, t: Tally)
    requires Mailed(cfg, u, v, s) && Mailed(cfg, v, w, t)
    ensures Mailed(cfg, u, w, s.Plus(t))
  {
  }

  lemma OneCounted(cfg: Config, v: View, o: TargetOutcome)
    ensures var t := OneTally(cfg, v, o);
      && t.incidents + t.suppressed == (if o.IsFailure() then 1 else 0)
      && t.recoveries == (if o.IsRecovery() then 1 else 0)
  {
  }

  lemma {:induction false} TargetsCounted(cfg: Config, v: View, outcomes: seq<TargetOutcome>, b: string)
    ensures var t := TargetsTally(cfg, v, outcomes, b);
      && t.incidents + t.suppressed == CountOutcomes(outcomes, b, true)
      && t.recoveries == CountOutcomes(outcomes, b, false)
    decreases |outcomes|
  {
    if outcomes != [] {
      var o := outcomes[0];
      if o.alias == b {
        OneCounted(cfg, v, o);
        TargetsCounted(cfg, Auto(cfg, v, o), outcomes[1..], b);
      } else {
        TargetsCounted(cfg, v, outcomes[1..], b);
      }
    }
  }

  lemma HostMailed(cfg: Config, v: View, down: bool)
    requires cfg.selfhosted
    ensures Mailed(cfg, v, AutoHost(cfg, v, down), HostTally(cfg, v, down))
  {
    MailsLastAll(v.emails, (if down then Incident else Resolved, ""));
  }

  /**
   * The report of a complete run names each alias once for every email it got (silent clearing
   * in Railway mode aside), and accounts for every failing outcome as announced or suppressed
   * and for every recovery, unless the host is down.
   */
  lemma ReportAccounts(cfg: Config, env: Env, aliases: set<string>, box: Box, outcomes: seq<TargetOutcome>, b: string)
    requires Setting(cfg, env, aliases) && b in aliases && AllProper(cfg, box, aliases) && Watched(outcomes, aliases)
    ensures var (c, report) := Processed(cfg, env, box, outcomes);
      report.Some? ==>
        var t := TallyOf(report.value, b);
        && Mailed(cfg, V(cfg, box, b), V(cfg, c, b), t)
        && (b != HOST_ALIAS && !(cfg.selfhosted && HostDown(outcomes)) ==>
              && t.incidents + t.suppressed == CountOutcomes(outcomes, b, true)
              && t.recoveries == CountOutcomes(outcomes, b, false))
  {
    var v := V(cfg, box, b);
    ReportIsTally(cfg, env, aliases, box, outcomes, b);
    RunView(cfg, env, aliases, box, outcomes, b);
    TargetsMailed(cfg, v, outcomes, b);
    TargetsCounted(cfg, v, outcomes, b);
    if cfg.selfhosted { HostMailed(cfg, v, HostDown(outcomes)); }
  }

  /** The run says about the alias what its outcome `i` says, and nothing else. */
  ghost predicate SoleOutcome(outcomes: seq<TargetOutcome>, b: string, i: nat) {
    && i < |outcomes| && outcomes[i].alias == b
    && forall k | 0 <= k < |outcomes| && k != i :: outcomes[k].alias != b
  }

  /** The tally and the automaton of a run that has one outcome for the alias. */
  lemma {:induction false} SoleOutcomeDecides(cfg: Config, v: View, outcomes: seq<TargetOutcome>, b: string, i: nat)
    requires SoleOutcome(outcomes, b, i)
    ensures TargetsTally(cfg, v, outcomes, b) == OneTally(cfg, v, outcomes[i])
    ensures AutoTargets(cfg, v, outcomes, b) == Auto(cfg, v, outcomes[i])
    decreases |outcomes|
  {
    var rest := outcomes[1..];
    if i > 0 {
      assert outcomes[0].alias != b && rest[i - 1] == outcomes[i];
      forall k | 0 <= k < |rest| && k != i - 1 ensures rest[k].alias != b { assert rest[k] == outcomes[k + 1]; }
      SoleOutcomeDecides(cfg, v, rest, b, i - 1);
    } else {
      forall k | 0 <= k < |rest| ensures rest[k].alias != b { assert rest[k] == outcomes[k + 1]; }
      NotListed(cfg, Auto(cfg, v, outcomes[0]), rest, b);
      PlusNone(OneTally(cfg, v, outcomes[0]));
    }
  }

  /**
   * A complete self-hosted run calls the host down by one email exactly when it has more than one
   * target, all of them unreachable, and no such incident is open, and calls it up again by one
   * exactly when not all are and one is open.
   */
  lemma HostEmailsExactly(cfg: Config, env: Env, aliases: set<string>, box: Box, outcomes: seq<TargetOutcome>)
    requires Setting(cfg, env, aliases) && AllProper(cfg, box, aliases) && Watched(outcomes, aliases)
    requires cfg.selfhosted && cfg.store
    ensures var (c, report) := Processed(cfg, env, box, outcomes);
      var v, w := V(cfg, box, HOST_ALIAS), V(cfg, c, HOST_ALIAS);
      var down := |outcomes| > 1
        && forall i | 0 <= i < |outcomes| :: outcomes[i].classification == Some(State.HOST_UNREACHABLE);
      report.Some? ==>
        && MailsOf(w.emails, Incident) == MailsOf(v.emails, Incident) + (if down && v.active.None? then 1 else 0)
        && MailsOf(w.emails, Resolved) == MailsOf(v.emails, Resolved) + (if !down && v.active.Some? then 1 else 0)
        && (w.active.Some? <==> down)
  {
    RunView(cfg, env, aliases, box, outcomes, HOST_ALIAS);
    var v, down := V(cfg, box, HOST_ALIAS), HostDown(outcomes);
    MailsLastAll(v.emails, (if down then Incident else Resolved, ""));
  }

  /** The run has one outcome for the alias, a failure, and does not call the host down. */
  ghost predicate SoleFailure(cfg: Config, outcomes: seq<TargetOutcome>, b: string, i: nat) {
    && SoleOutcome(outcomes, b, i) && !outcomes[i].recovered && !outcomes[i].deferred
    && !(cfg.selfhosted && HostDown(outcomes))
  }

  /** The answer is the hash of the condition, or the empty string when there is none to hash. */
  predicate Identified(cfg: Config, condition: Option<string>, answer: Option<string>) {
    answer.Some? && Identifies(cfg, condition, answer.value)
  }

  /** After a complete run that reports a failure, the store knows it by the hash of its condition. */
  lemma FailureIsStored(cfg: Config, env: Env, aliases: set<string>, box: Box, outcomes: seq<TargetOutcome>,
      b: string, i: nat)
    requires Setting(cfg, env, aliases) && b in aliases && AllProper(cfg, box, aliases) && Watched(outcomes, aliases)
    requires cfg.store && SoleFailure(cfg, outcomes, b, i)
    ensures var (c, report) := Processed(cfg, env, box, outcomes);
      report.Some? ==> Identified(cfg, outcomes[i].condition, Lookup(c.log, cfg.keyOf(b)))
  {
    assert outcomes[i].alias != HOST_ALIAS;
    var v := V(cfg, box, b);
    var (c, report) := Processed(cfg, env, box, outcomes);
    RunView(cfg, env, aliases, box, outcomes, b);
    SoleOutcomeDecides(cfg, v, outcomes, b, i);
    AutoActive(cfg, v, outcomes[i]);
    FingerprintIdentifies(cfg, outcomes[i].condition, Fingerprint(cfg, outcomes[i].condition));
    assert P(cfg, c, b);
    ViewActive(c.log, b, cfg.keyOf(b));
  }

  /** An alias is listed as cleared exactly when a passively healthy outcome found its incident open. */
  lemma ClearedWhenOpen(cfg: Config, env: Env, aliases: set<string>, box: Box, outcomes: seq<TargetOutcome>,
      b: string, i: nat)
    requires Setting(cfg, env, aliases) && b in aliases && AllProper(cfg, box, aliases) && Watched(outcomes, aliases)
    requires SoleOutcome(outcomes, b, i) && !(cfg.selfhosted && HostDown(outcomes))
    ensures var (c, report) := Processed(cfg, env, box, outcomes);
      report.Some? ==>
        (b in report.value.cleared <==>
          && outcomes[i].recovered && outcomes[i].action == NoAction && !outcomes[i].deferred
          && cfg.store && V(cfg, box, b).active.Some?)
  {
    assert outcomes[i].alias != HOST_ALIAS;
    var v, report := V(cfg, box, b), Processed(cfg, env, box, outcomes).1;
    ReportIsTally(cfg, env, aliases, box, outcomes, b);
    SoleOutcomeDecides(cfg, v, outcomes, b, i);
    if report.Some? {
      ListedIffTallied(report.value, b);
      ClearedEntry(cfg, outcomes[i], v.active);
    }
  }

  lemma ListedIffTallied(r: Report, b: string)
    ensures b in r.cleared <==> TallyOf(r, b).cleared > 0
  {
    assert b in r.cleared <==> b in multiset(r.cleared);
  }

  lemma ClearedEntry(cfg: Config, o: TargetOutcome, open: Option<string>)
    ensures Unit(EntryOf(cfg, o, open)).cleared > 0 <==> o.IsPassiveHealthy() && cfg.store && open.Some?
  {
  }

  lemma {:induction false} NotListed(cfg: Config, v: View, outcomes: seq<TargetOutcome>, b: string)
    requires forall k | 0 <= k < |outcomes| :: outcomes[k].alias != b
    ensures TargetsTally(cfg, v, outcomes, b) == NONE && AutoTargets(cfg, v, outcomes, b) == v
    decreases |outcomes|
  {
    if outcomes != [] { NotListed(cfg, v, outcomes[1..], b); }
  }
}
