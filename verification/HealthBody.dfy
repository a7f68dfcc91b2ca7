/** What the body of a gateway status reply says, read by its keys, and the verdict it leads to. */
module HealthBody {
  import opened Wrappers
  import opened Json
  import opened StringOrder
  import opened Responses
  import opened State
  import opened Replies
  import opened StatusBody

  /** A status reply that can be read. */
  predicate Answers(reply: Reply) {
    reply.Http? && reply.status == 200 && reply.body.Some? && reply.body.value.Obj?
  }

  predicate SaysRunning(body: Json) {
    Field(body, "gateway_running") == Bool(true)
  }

  function Listing(body: Json): Json {
    Field(body, "gateway_platforms")
  }

  /** The state a platform is in; without one it is unknown. */
  function StateIn(info: Json): string {
    var state := Field(info, "state");
    if state.Str? && state.s != "" then state.s else "unknown"
  }

  /** The body lists a platform of this name that is neither connected nor ignored. */
  predicate FailsIn(body: Json, name: string, ignored: set<string>, lower: string -> string) {
    && Listing(body).Obj? && Has(Listing(body).entries, name)
    && StateIn(Field(Listing(body), name)) != "connected" && lower(name) !in ignored
  }

  predicate ListsOnce(body: Json) {
    Listing(body).Obj? ==> DistinctKeys(Listing(body).entries)
  }

  // ----- the health that is read says the same

  lemma HealthIsRead(reply: Reply)
    ensures HealthOf(reply).Some? <==> Answers(reply)
    ensures Answers(reply) ==>
      && HealthOf(reply).value.statusOk
      && (HealthOf(reply).value.gatewayRunning <==> SaysRunning(reply.body.value))
      && HealthOf(reply).value.platforms == Platforms(Listing(reply.body.value))
  {
  }

  /** What is read of one platform: its state, and what texts it gives. */
  predicate ReadAs(p: PlatformState, info: Json) {
    && p.state == StateIn(info)
    && (match p.errorCode
        case Some(code) => code != "" && Field(info, "error_code") == Str(code)
        case None => !Field(info, "error_code").Str? || Field(info, "error_code").s == "")
    && (match p.errorMessage
        case Some(text) => text != "" && Field(info, "error_message") == Str(text)
        case None => !Field(info, "error_message").Str? || Field(info, "error_message").s == "")
  }

  lemma PlatformReads(name: string, info: Json)
    ensures PlatformOf(name, info).name == name && ReadAs(PlatformOf(name, info), info)
  {
  }

  lemma KeyIsListed(entries: seq<(string, Json)>, i: nat)
    requires i < |Sort(Keys(entries))|
    ensures Has(entries, Sort(Keys(entries))[i])
  {
    var names := Sort(Keys(entries));
    InMultiset(names[i], names);
    InMultiset(names[i], Keys(entries));
    var k :| 0 <= k < |entries| && Keys(entries)[k] == names[i];
  }

  /** Every platform that is read is one of the listing's, with what the listing says of it. */
  lemma PlatformIsListed(body: Json, i: nat)
    requires i < |Platforms(Listing(body))|
    ensures var p := Platforms(Listing(body))[i];
      Listing(body).Obj? && Has(Listing(body).entries, p.name) && ReadAs(p, Field(Listing(body), p.name))
  {
    var entries := Listing(body).entries;
    var name := Sort(Keys(entries))[i];
    KeyIsListed(entries, i);
    PlatformReads(name, Get(entries, name));
  }

  /** Where a string stands in a list. */
  function Places(names: seq<string>, name: string): set<nat> {
    set i: nat | i < |names| && names[i] == name
  }

  lemma {:induction false} PlacesCounted(names: seq<string>, name: string)
    ensures |Places(names, name)| == multiset(names)[name]
  {
    if names != [] {
      var n := |names| - 1;
      PlacesCounted(names[..n], name);
      assert names == names[..n] + [names[n]];
      var before, all := Places(names[..n], name), Places(names, name);
      assert all == if names[n] == name then before + {n} else before;
    }
  }

  /** Each listed platform is read once. */
  lemma NamedOnce(entries: seq<(string, Json)>, name: string)
    requires DistinctKeys(entries)
    ensures |Places(Sort(Keys(entries)), name)| == if Has(entries, name) then 1 else 0
  {
    PlacesCounted(Sort(Keys(entries)), name);
    CountDistinct(Keys(entries), name);
    if Has(entries, name) {
      var i :| 0 <= i < |entries| && entries[i].0 == name;
      assert Keys(entries)[i] == name;
    }
  }

  lemma FailsOnce(body: Json, name: string, ignored: set<string>, lower: string -> string)
    requires ListsOnce(body)
    ensures |FailingAt(Platforms(Listing(body)), name, ignored, lower)|
         == if FailsIn(body, name, ignored, lower) then 1 else 0
  {
    var platforms := Platforms(Listing(body));
    var failing := FailingAt(platforms, name, ignored, lower);
    if Listing(body).Obj? {
      var names := Sort(Keys(Listing(body).entries));
      NamedOnce(Listing(body).entries, name);
      forall i: nat | i < |platforms| ensures platforms[i].name == names[i]
          && platforms[i].state == StateIn(Field(Listing(body), names[i])) { }
      assert failing == if FailsIn(body, name, ignored, lower) then Places(names, name) else {};
    } else {
      assert failing == {};
    }
  }

  // ----- the verdict

  /** What the body of a status reply classifies as in self-hosted mode, and the condition it is reported with. */
  lemma ReplyDecides(reply: Reply, ignored: set<string>, lower: string -> string) returns (names: seq<string>)
    requires Answers(reply) && ListsOnce(reply.body.value)
    ensures Sorted(names)
    ensures forall name: string ::
      multiset(names)[name] == if FailsIn(reply.body.value, name, ignored, lower) then 1 else 0
    ensures var v := ClassifySelfhosted(HealthOf(reply), ignored, lower);
      if !SaysRunning(reply.body.value) then
        v.classification == GATEWAY_ONLY_FAILURE && v.condition == Some("gateway_only_failure")
      else if names == [] then v.classification == HEALTHY && v.condition.None?
      else v.classification == PLATFORM_DEGRADED && v.condition == Some("platform_degraded:" + Join(names))
  {
    HealthIsRead(reply);
    var h, body := HealthOf(reply), reply.body.value;
    var bad := Names(Failing(h.value.platforms, ignored, lower));
    names := Sort(bad);
    SortSorted(bad);
    forall name: string ensures multiset(names)[name] == if FailsIn(body, name, ignored, lower) then 1 else 0 {
      FailingCounted(h.value.platforms, name, ignored, lower);
      FailsOnce(body, name, ignored, lower);
    }
    assert |multiset(names)| == |multiset(bad)|;
  }
}
