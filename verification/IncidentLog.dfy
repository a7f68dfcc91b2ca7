/** The inbox as an append-only log of markers, and the search that reads it back. */
module IncidentLog {
  import opened Wrappers
  import opened Text

  const INCIDENT_PREFIX := "WD-INCIDENT:"
  const RESOLVED_PREFIX := "WD-RESOLVED:"
  const LOOKUP_LIMIT := 10

  datatype Kind = Recovery | Incident | Resolved

  /** Messages as stored, oldest first. An alert also carries what it was sent about. */
  datatype Mail =
    | Marker(subject: string)
    | Alert(subject: string, alias: string, kind: Kind, fingerprint: string)
    | Foreign(subject: string)

  /** What a subject says about a key: nothing, an incident with its fingerprint, or its end. */
  datatype Reading = Silent | Open(fingerprint: string) | Closed

  function Read(subject: string, key: string): Reading {
    var incident := INCIDENT_PREFIX + key;
    if subject == incident then Open("")
    else if incident + ":" <= subject then Open(subject[|incident| + 1..])
    else if subject == RESOLVED_PREFIX + key then Closed
    else Silent
  }

  function IncidentSubject(key: string, fingerprint: string): string {
    INCIDENT_PREFIX + key + if fingerprint == "" then "" else ":" + fingerprint
  }

  function ResolvedSubject(key: string): string {
    RESOLVED_PREFIX + key
  }

  /** The messages whose subject contains the key, newest first. */
  function Matching(log: seq<Mail>, key: string): seq<Mail> {
    if log == [] then []
    else
      var m := log[|log| - 1];
      (if Occurs(key, m.subject) then [m] else []) + Matching(log[..|log| - 1], key)
  }

  /** One page of the search. */
  function Page(log: seq<Mail>, key: string): seq<Mail> {
    var all := Matching(log, key);
    if |all| <= LOOKUP_LIMIT then all else all[..LOOKUP_LIMIT]
  }

  /** The first marker of the key in the listing decides. */
  function Decide(mails: seq<Mail>, key: string): Option<string> {
    if mails == [] then None
    else match Read(mails[0].subject, key)
      case Open(fingerprint) => Some(fingerprint)
      case Closed => None
      case Silent => Decide(mails[1..], key)
  }

  /** `active_condition`: what the store answers. */
  function Lookup(log: seq<Mail>, key: string): Option<string> {
    Decide(Page(log, key), key)
  }

  // ----- the log read without search, filter or page

  /** The conditions of all open incidents, as a map folded over the whole log. */
  function Fold(log: seq<Mail>, keys: set<string>): map<string, string> {
    if log == [] then map[]
    else
      var before := Fold(log[..|log| - 1], keys);
      var subject := log[|log| - 1].subject;
      map k | k in keys && Answer(before, subject, k).Some? :: Answer(before, subject, k).value
  }

  function Answer(before: map<string, string>, subject: string, key: string): Option<string> {
    match Read(subject, key)
    case Open(fingerprint) => Some(fingerprint)
    case Closed => None
    case Silent => if key in before then Some(before[key]) else None
  }

  /** The same for one key: the newest marker of the key in the whole log. */
  function Active(log: seq<Mail>, key: string): Option<string> {
    if log == [] then None
    else match Read(log[|log| - 1].subject, key)
      case Open(fingerprint) => Some(fingerprint)
      case Closed => None
      case Silent => Active(log[..|log| - 1], key)
  }

  lemma {:induction false} FoldIsActive(log: seq<Mail>, keys: set<string>, key: string)
    requires key in keys
    ensures Active(log, key) == if key in Fold(log, keys) then Some(Fold(log, keys)[key]) else None
  {
    if log != [] { FoldIsActive(log[..|log| - 1], keys, key); }
  }

  /** A marker of a key contains the key. */
  lemma ReadContainsKey(subject: string, key: string)
    requires Read(subject, key) != Silent
    ensures Occurs(key, subject)
  {
    var prefix := if Read(subject, key).Closed? then RESOLVED_PREFIX else INCIDENT_PREFIX;
    var tail := subject[|prefix| + |key|..];
    WholeOccurs(key);
    OccursInPart(key, prefix, key, tail);
    if subject == prefix + key {
      assert tail == "" && prefix + key + tail == subject;
    } else {
      var n := |prefix| + |key|;
      assert subject[..n + 1] == prefix + key + ":";
      assert subject[..n] == subject[..n + 1][..n] == prefix + key;
      assert prefix + key + tail == subject;
    }
  }

  /** Filtering by the key loses no marker of it. */
  lemma {:induction false} MatchingDecides(log: seq<Mail>, key: string)
    ensures Decide(Matching(log, key), key) == Active(log, key)
  {
    if log != [] {
      var m, before := log[|log| - 1], log[..|log| - 1];
      MatchingDecides(before, key);
      if Read(m.subject, key) != Silent { ReadContainsKey(m.subject, key); }
      if Occurs(key, m.subject) {
        assert ([m] + Matching(before, key))[1..] == Matching(before, key);
      } else {
        assert [] + Matching(before, key) == Matching(before, key);
      }
    }
  }

  /** How many messages stand before the first marker of the key. */
  function Depth(mails: seq<Mail>, key: string): (d: nat)
    ensures d <= |mails|
  {
    if mails == [] || Read(mails[0].subject, key) != Silent then 0 else 1 + Depth(mails[1..], key)
  }

  lemma {:induction false} PrefixDecides(mails: seq<Mail>, key: string, n: nat)
    requires n <= |mails|
    ensures Decide(mails[..n], key) == if Depth(mails, key) < n then Decide(mails, key) else None
    ensures Depth(mails, key) == |mails| ==> Decide(mails, key) == None
  {
    if mails != [] {
      if n > 0 { assert mails[..n][1..] == mails[1..][..n - 1]; }
      PrefixDecides(mails[1..], key, if n > 0 then n - 1 else 0);
    }
  }

  /**
   * The ten-message search is right exactly when the newest marker of the key is among the
   * ten newest messages that contain the key, or no incident is open anyway.
   */
  lemma LookupExact(log: seq<Mail>, key: string)
    ensures Lookup(log, key) == Active(log, key)
       <==> Depth(Matching(log, key), key) < 10 || Active(log, key) == None
  {
    MatchingDecides(log, key);
    var all := Matching(log, key);
    var n := if |all| <= LOOKUP_LIMIT then |all| else LOOKUP_LIMIT;
    PrefixDecides(all, key, n);
    assert all[..|all|] == all;
  }

  // ----- counting markers instead

  /** Incident markers of the key less resolved ones. */
  function Balance(log: seq<Mail>, key: string): int {
    if log == [] then 0
    else
      Balance(log[..|log| - 1], key)
      + match Read(log[|log| - 1].subject, key)
        case Open(_) => 1
        case Closed => -1
        case Silent => 0
  }

  /** Counting, as the store describes itself, and the newest marker, as it works, say the same. */
  predicate CountingAgrees(log: seq<Mail>, key: string) {
    Balance(log, key) > 0 <==> Active(log, key).Some?
  }

  /** No incident is marked while resolved markers are ahead, and none is resolved while two are open. */
  ghost predicate Paired(log: seq<Mail>, key: string) {
    forall n | 0 <= n < |log| ::
      match Read(log[n].subject, key)
      case Open(_) => Balance(log[..n], key) >= 0
      case Closed => Balance(log[..n], key) <= 1
      case Silent => true
  }

  lemma BalanceLast(log: seq<Mail>, m: Mail, key: string)
    ensures Balance(log + [m], key) == Balance(log, key) + match Read(m.subject, key)
      case Open(_) => 1
      case Closed => -1
      case Silent => 0
  {
    assert (log + [m])[..|log|] == log;
  }

  lemma BalanceStep(log: seq<Mail>, n: nat, key: string)
    requires n < |log| && CountingAgrees(log[..n], key)
    ensures CountingAgrees(log[..n + 1], key) <==>
      match Read(log[n].subject, key)
      case Open(_) => Balance(log[..n], key) >= 0
      case Closed => Balance(log[..n], key) <= 1
      case Silent => true
  {
    assert log[..n + 1][..n] == log[..n];
  }

  /** Counting and the newest marker agree all along a log exactly when its markers are paired. */
  lemma {:induction false} CountingAgreesIff(log: seq<Mail>, key: string)
    ensures (forall n | 0 <= n <= |log| :: CountingAgrees(log[..n], key)) <==> Paired(log, key)
  {
    if forall n | 0 <= n <= |log| :: CountingAgrees(log[..n], key) {
      forall n | 0 <= n < |log|
        ensures match Read(log[n].subject, key)
                case Open(_) => Balance(log[..n], key) >= 0
                case Closed => Balance(log[..n], key) <= 1
                case Silent => true
      {
        assert CountingAgrees(log[..n], key) && CountingAgrees(log[..n + 1], key);
        BalanceStep(log, n, key);
      }
    }
    if Paired(log, key) { PairedAgrees(log, key, |log|); }
  }

  lemma {:induction false} PairedAgrees(log: seq<Mail>, key: string, n: nat)
    requires n <= |log| && Paired(log, key)
    ensures forall m | 0 <= m <= n :: CountingAgrees(log[..m], key)
  {
    if n == 0 {
      assert log[..0] == [];
    } else {
      PairedAgrees(log, key, n - 1);
      BalanceStep(log, n - 1, key);
    }
  }

  lemma BalanceOfThree(a: Mail, b: Mail, c: Mail, key: string)
    requires Read(a.subject, key).Open? && Read(b.subject, key).Open? && Read(c.subject, key).Closed?
    ensures Balance([a, b, c], key) == 1
  {
    assert [] + [a] == [a] && [a] + [b] == [a, b] && [a, b] + [c] == [a, b, c];
    BalanceLast([], a, key);
    BalanceLast([a], b, key);
    BalanceLast([a, b], c, key);
  }

  /** A changed condition, then the end: the newest marker closes what counting would keep open. */
  lemma CountingDiffers(key: string, first: string, second: string)
    requires IsKey(key) && IsFingerprint(first) && IsFingerprint(second)
    ensures var log := [Marker(IncidentSubject(key, first)), Marker(IncidentSubject(key, second)),
      Marker(ResolvedSubject(key))];
      Lookup(log, key) == None && Balance(log, key) == 1 && !CountingAgrees(log, key)
  {
    var a, b, c := Marker(IncidentSubject(key, first)), Marker(IncidentSubject(key, second)),
      Marker(ResolvedSubject(key));
    var log := [a, b, c];
    IncidentReads(key, first, key);
    IncidentReads(key, second, key);
    ResolvedReads(key, key);
    BalanceOfThree(a, b, c, key);
    assert Clean(log, key) && log[|log| - 1] == c;
    LookupIsFold(log, {key}, key);
  }

  /** Incident markers of the key since its last resolved one. */
  function Opens(log: seq<Mail>, key: string): nat {
    if log == [] then 0
    else
      var before := Opens(log[..|log| - 1], key);
      match Read(log[|log| - 1].subject, key)
      case Open(_) => before + 1
      case Closed => 0
      case Silent => before
  }

  /** An incident is only resolved while it is open. */
  ghost predicate Orderly(log: seq<Mail>, key: string) {
    forall n | 0 <= n < |log| && Read(log[n].subject, key) == Closed :: Active(log[..n], key).Some?
  }

  /** Each resolved marker ends one incident marker: no condition replaced another while it was open. */
  ghost predicate OneByOne(log: seq<Mail>, key: string) {
    forall n | 0 <= n < |log| && Read(log[n].subject, key) == Closed :: Opens(log[..n], key) == 1
  }

  lemma {:induction false} ActiveIffOpens(log: seq<Mail>, key: string)
    ensures Active(log, key).Some? <==> Opens(log, key) > 0
  {
    if log != [] { ActiveIffOpens(log[..|log| - 1], key); }
  }

  lemma {:induction false} OneByOneBalances(log: seq<Mail>, key: string, n: nat)
    requires n <= |log| && OneByOne(log, key)
    ensures Balance(log[..n], key) == Opens(log[..n], key)
  {
    if n > 0 {
      OneByOneBalances(log, key, n - 1);
      assert log[..n][..n - 1] == log[..n - 1];
    } else {
      assert log[..0] == [];
    }
  }

  lemma {:induction false} AgreeingIsOneByOne(log: seq<Mail>, key: string, n: nat)
    requires n <= |log| && Orderly(log, key) && forall k | 0 <= k <= |log| :: CountingAgrees(log[..k], key)
    ensures Balance(log[..n], key) == Opens(log[..n], key)
    ensures forall k | 0 <= k < n && Read(log[k].subject, key) == Closed :: Opens(log[..k], key) == 1
  {
    if n > 0 {
      AgreeingIsOneByOne(log, key, n - 1);
      ActiveIffOpens(log[..n - 1], key);
      assert log[..n][..n - 1] == log[..n - 1];
      assert CountingAgrees(log[..n], key);
    } else {
      assert log[..0] == [];
    }
  }

  /**
   * On a log where incidents are only resolved while open, counting agrees all along exactly when
   * no resolved marker ends more than one incident marker.
   */
  lemma CountingAgreesOneByOne(log: seq<Mail>, key: string)
    requires Orderly(log, key)
    ensures (forall n | 0 <= n <= |log| :: CountingAgrees(log[..n], key)) <==> OneByOne(log, key)
  {
    if OneByOne(log, key) {
      forall n | 0 <= n <= |log| ensures CountingAgrees(log[..n], key) {
        OneByOneBalances(log, key, n);
        ActiveIffOpens(log[..n], key);
      }
    }
    if forall n | 0 <= n <= |log| :: CountingAgrees(log[..n], key) {
      AgreeingIsOneByOne(log, key, |log|);
    }
  }

  // ----- where the search misses

  /** An incident marker with mail on top of it that contains the key. */
  function Buried(key: string, fingerprint: string, n: nat): seq<Mail> {
    if n == 0 then [Marker(IncidentSubject(key, fingerprint))] else Buried(key, fingerprint, n - 1) + [Foreign(key)]
  }

  lemma MarkerIsFound(m: Mail, key: string, fingerprint: string)
    requires Read(m.subject, key) == Open(fingerprint)
    ensures Active([m], key) == Some(fingerprint) && Depth(Matching([m], key), key) == 0
  {
    ReadContainsKey(m.subject, key);
    assert [m][..0] == [] && Matching([], key) == [];
    assert Matching([m], key) == [m] + [];
  }

  lemma {:induction false} BuriedStaysOpen(key: string, fingerprint: string, n: nat)
    requires IsKey(key) && IsFingerprint(fingerprint)
    ensures var log := Buried(key, fingerprint, n);
      Active(log, key) == Some(fingerprint) && Depth(Matching(log, key), key) == n
  {
    var log := Buried(key, fingerprint, n);
    if n == 0 {
      IncidentReads(key, fingerprint, key);
      MarkerIsFound(log[0], key, fingerprint);
    } else {
      BuriedStaysOpen(key, fingerprint, n - 1);
      OnTop(Buried(key, fingerprint, n - 1), key);
    }
  }

  lemma OnTop(before: seq<Mail>, key: string)
    ensures var log := before + [Foreign(key)];
      && Active(log, key) == Active(before, key)
      && Depth(Matching(log, key), key) == Depth(Matching(before, key), key) + 1
  {
    var log := before + [Foreign(key)];
    assert log[..|log| - 1] == before && log[|log| - 1] == Foreign(key);
    WholeOccurs(key);
    KeyAloneIsSilent(key);
    var mails := [Foreign(key)] + Matching(before, key);
    assert Matching(log, key) == mails;
    assert mails[1..] == Matching(before, key);
  }

  lemma KeyAloneIsSilent(key: string)
    ensures Read(key, key) == Silent
  {
    assert |INCIDENT_PREFIX + key| > |key| && |INCIDENT_PREFIX + key + ":"| > |key| && |RESOLVED_PREFIX + key| > |key|;
  }

  /** Ten messages that contain the key hide an open incident from the search. */
  lemma LookupMisses(key: string, fingerprint: string)
    requires IsKey(key) && IsFingerprint(fingerprint)
    ensures var log := Buried(key, fingerprint, 10);
      Active(log, key) == Some(fingerprint) && Lookup(log, key) != Active(log, key)
  {
    BuriedStaysOpen(key, fingerprint, 10);
    LookupExact(Buried(key, fingerprint, 10), key);
  }

  // ----- opaque keys keep markers apart

  predicate Hex(s: string) {
    forall i | 0 <= i < |s| :: '0' <= s[i] <= '9' || 'a' <= s[i] <= 'f'
  }

  predicate IsKey(s: string) {
    |s| == 16 && Hex(s)
  }

  predicate IsFingerprint(s: string) {
    s == "" || (|s| == 12 && Hex(s))
  }

  /** Only markers of the key contain it. */
  ghost predicate CleanFor(m: Mail, key: string) {
    Occurs(key, m.subject) ==> Read(m.subject, key) != Silent
  }

  lemma KeyIsPlaced(key: string, subject: string, p: nat)
    requires IsKey(key) && |subject| >= 28 && subject[11] == ':' && (|subject| > 28 ==> subject[28] == ':')
    requires |subject| <= 41 && At(subject, p, key)
    ensures p == 12
  {
    forall j | p <= j < p + 16 ensures subject[j] != ':' {
      assert subject[p..p + 16][j - p] == key[j - p];
    }
  }

  lemma MarkerShape(key: string, fingerprint: string)
    requires IsKey(key) && IsFingerprint(fingerprint)
    ensures var s := IncidentSubject(key, fingerprint);
      28 <= |s| <= 41 && s[11] == ':' && (|s| > 28 ==> s[28] == ':') && s[12..28] == key
    ensures var s := ResolvedSubject(key); |s| == 28 && s[11] == ':' && s[12..28] == key
  {
  }

  /** Markers read back as written, by their own key only. */
  lemma IncidentReads(key: string, fingerprint: string, other: string)
    requires IsKey(key) && IsKey(other) && IsFingerprint(fingerprint)
    ensures Read(IncidentSubject(key, fingerprint), key) == Open(fingerprint)
    ensures other != key ==> !Occurs(other, IncidentSubject(key, fingerprint))
  {
    var s := IncidentSubject(key, fingerprint);
    MarkerShape(key, fingerprint);
    if fingerprint != "" {
      assert s == INCIDENT_PREFIX + key + ":" + fingerprint;
      assert |s| > |INCIDENT_PREFIX + key|;
    }
    if Occurs(other, s) {
      var p: nat :| p <= |s| && At(s, p, other);
      KeyIsPlaced(other, s, p);
    }
  }

  lemma ResolvedReads(key: string, other: string)
    requires IsKey(key) && IsKey(other)
    ensures Read(ResolvedSubject(key), key) == Closed
    ensures other != key ==> !Occurs(other, ResolvedSubject(key))
  {
    var s := ResolvedSubject(key);
    MarkerShape(key, "");
    assert s[3] == 'R' && (INCIDENT_PREFIX + key)[3] == 'I';
    assert (INCIDENT_PREFIX + key + ":")[3] == 'I';
    if Occurs(other, s) {
      var p: nat :| p <= |s| && At(s, p, other);
      KeyIsPlaced(other, s, p);
    }
  }

  ghost predicate Clean(log: seq<Mail>, key: string) {
    forall i | 0 <= i < |log| :: CleanFor(log[i], key)
  }

  /** With only markers containing the key, the search is the map folded over the whole log. */
  lemma LookupIsFold(log: seq<Mail>, keys: set<string>, key: string)
    requires key in keys && Clean(log, key)
    ensures Lookup(log, key) == Active(log, key)
    ensures Lookup(log, key) == if key in Fold(log, keys) then Some(Fold(log, keys)[key]) else None
  {
    FoldIsActive(log, keys, key);
    LookupExact(log, key);
    NewestDecides(log, key);
  }

  lemma {:induction false} NewestDecides(log: seq<Mail>, key: string)
    requires Clean(log, key)
    ensures Depth(Matching(log, key), key) == 0
  {
    if log != [] {
      var m, before := log[|log| - 1], log[..|log| - 1];
      assert CleanFor(m, key);
      NewestDecides(before, key);
      if !Occurs(key, m.subject) { assert [] + Matching(before, key) == Matching(before, key); }
    }
  }
}
