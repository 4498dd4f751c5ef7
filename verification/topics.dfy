/** The topic registry and its two independent expansions
    (backend/libs/pipeline/topics.py, infra/bootstrap_topics.py). */
module Topics {
  import opened Text
  import opened Retry
  import opened Sorting

  /** One entry of topics.json; an absent `retries` flag is None. */
  datatype RawSpec = RawSpec(name: string, partitions: map<string, nat>, retentionMs: nat, retries: Option<bool>)

  datatype Profile = Profile(replicationFactor: nat, minInsyncReplicas: nat)

  datatype RawRegistry = RawRegistry(profiles: map<string, Profile>, retryTiers: seq<Tier>, topics: seq<RawSpec>)

  datatype TopicSpec = TopicSpec(name: string, partitions: map<string, nat>, retentionMs: nat, retries: bool)

  datatype TopicPlan = TopicPlan(name: string, partitions: nat, replicationFactor: nat, configs: map<string, string>)

  const DLQ_RETENTION_MS: nat := 90 * 24 * 3600 * 1000
  const DEV: string := "dev"
  const MIN_ISR: string := "min.insync.replicas"
  const RETENTION: string := "retention.ms"

  predicate HasProfile(raw: RawRegistry, profile: string) {
    profile in raw.profiles && forall i :: 0 <= i < |raw.topics| ==> profile in raw.topics[i].partitions
  }

  function ToSpec(raw: RawSpec): TopicSpec {
    TopicSpec(raw.name, raw.partitions, raw.retentionMs, raw.retries == Some(true))
  }

  function Share(partitions: nat, divisor: nat): nat
    requires 0 < divisor
  {
    if partitions / divisor < 1 then 1 else partitions / divisor
  }

  // ------------------------------------------------- what must exist, once stated

  function Configs(p: Profile, retentionMs: nat): map<string, string> {
    map[MIN_ISR := Dec(p.minInsyncReplicas), RETENTION := Dec(retentionMs)]
  }

  function TierPlans(spec: TopicSpec, tiers: seq<Tier>, p: Profile, profile: string): seq<TopicPlan>
    requires profile in spec.partitions
  {
    seq(|tiers|, i requires 0 <= i < |tiers| =>
      TopicPlan(RetryTopic(spec.name, tiers[i]), Share(spec.partitions[profile], 2), p.replicationFactor,
                Configs(p, spec.retentionMs)))
  }

  function SpecPlans(spec: TopicSpec, tiers: seq<Tier>, p: Profile, profile: string): seq<TopicPlan>
    requires profile in spec.partitions
  {
    [TopicPlan(spec.name, spec.partitions[profile], p.replicationFactor, Configs(p, spec.retentionMs))]
    + (if spec.retries then TierPlans(spec, tiers, p, profile) else [])
    + [TopicPlan(DlqTopic(spec.name), Share(spec.partitions[profile], 4), p.replicationFactor,
                 Configs(p, DLQ_RETENTION_MS))]
  }

  function Expand(specs: seq<TopicSpec>, tiers: seq<Tier>, p: Profile, profile: string): seq<TopicPlan>
    requires forall i :: 0 <= i < |specs| ==> profile in specs[i].partitions
  {
    if specs == [] then []
    else Expand(specs[..|specs| - 1], tiers, p, profile) + SpecPlans(specs[|specs| - 1], tiers, p, profile)
  }

  // ------------------------------------------------------------------- registry

  ghost predicate DistinctNames(topics: seq<RawSpec>) {
    forall i, j :: 0 <= i < j < |topics| ==> topics[i].name != topics[j].name
  }

  /** Assignment into an insertion-ordered dict: a repeated key keeps its place and changes its value. */
  function Put(specs: seq<TopicSpec>, spec: TopicSpec): (r: seq<TopicSpec>)
    ensures |specs| <= |r| <= |specs| + 1
  {
    if specs == [] then [spec]
    else if specs[0].name == spec.name then [spec] + specs[1..]
    else [specs[0]] + Put(specs[1..], spec)
  }

  /** The values of `{spec["name"]: TopicSpec(...) for spec in raw["topics"]}`. */
  function Declared(topics: seq<RawSpec>): seq<TopicSpec> {
    if topics == [] then [] else Put(Declared(topics[..|topics| - 1]), ToSpec(topics[|topics| - 1]))
  }

  function AllSpecs(topics: seq<RawSpec>): (specs: seq<TopicSpec>)
    ensures |specs| == |topics| && forall i :: 0 <= i < |specs| ==> specs[i] == ToSpec(topics[i])
  {
    seq(|topics|, i requires 0 <= i < |topics| => ToSpec(topics[i]))
  }

  lemma {:induction false} PutReplaces(specs: seq<TopicSpec>, spec: TopicSpec, k: nat)
    requires k < |specs| && specs[k].name == spec.name && forall i :: 0 <= i < k ==> specs[i].name != spec.name
    ensures Put(specs, spec) == specs[k := spec]
  {
    if k > 0 {
      PutReplaces(specs[1..], spec, k - 1);
    }
  }

  lemma {:induction false} PutNew(specs: seq<TopicSpec>, spec: TopicSpec)
    requires forall i :: 0 <= i < |specs| ==> specs[i].name != spec.name
    ensures Put(specs, spec) == specs + [spec]
  {
    if specs != [] {
      PutNew(specs[1..], spec);
    }
  }

  lemma {:induction false} DeclaredDistinct(topics: seq<RawSpec>)
    requires DistinctNames(topics)
    ensures Declared(topics) == AllSpecs(topics)
  {
    if topics != [] {
      var init, last := topics[..|topics| - 1], topics[|topics| - 1];
      DeclaredDistinct(init);
      forall i | 0 <= i < |init| ensures AllSpecs(init)[i].name != last.name {
        assert topics[i] == init[i];
      }
      PutNew(AllSpecs(init), ToSpec(last));
    }
  }

  lemma {:induction false} DeclaredPartitions(topics: seq<RawSpec>, profile: string)
    requires forall i :: 0 <= i < |topics| ==> profile in topics[i].partitions
    ensures forall i :: 0 <= i < |Declared(topics)| ==> profile in Declared(topics)[i].partitions
  {
    if topics != [] {
      DeclaredPartitions(topics[..|topics| - 1], profile);
      PutPartitions(Declared(topics[..|topics| - 1]), ToSpec(topics[|topics| - 1]), profile);
    }
  }

  lemma {:induction false} PutPartitions(specs: seq<TopicSpec>, spec: TopicSpec, profile: string)
    requires profile in spec.partitions && forall i :: 0 <= i < |specs| ==> profile in specs[i].partitions
    ensures forall i :: 0 <= i < |Put(specs, spec)| ==> profile in Put(specs, spec)[i].partitions
  {
    if specs != [] && specs[0].name != spec.name {
      PutPartitions(specs[1..], spec, profile);
    }
  }

  // ----------------------------------------------------- the two derivations

  /** `TopicRegistry.plan`: over the dict's values. */
  method Plan(raw: RawRegistry, profile: string) returns (plans: seq<TopicPlan>)
    requires HasProfile(raw, profile)
    ensures forall i :: 0 <= i < |Declared(raw.topics)| ==> profile in Declared(raw.topics)[i].partitions
    ensures plans == Expand(Declared(raw.topics), raw.retryTiers, raw.profiles[profile], profile)
  {
    DeclaredPartitions(raw.topics, profile);
    var settings := raw.profiles[profile];
    var specs := Declared(raw.topics);
    plans := [];
    for s := 0 to |specs|
      invariant plans == Expand(specs[..s], raw.retryTiers, settings, profile)
    {
      assert specs[..s + 1][..s] == specs[..s];
      plans := AppendSpec(plans, specs[s], raw.retryTiers, settings, profile);
    }
    assert specs[..|specs|] == specs;
  }

  /** The body of the loop in `TopicRegistry.plan`. */
  method AppendSpec(before: seq<TopicPlan>, spec: TopicSpec, tiers: seq<Tier>, settings: Profile, profile: string)
    returns (plans: seq<TopicPlan>)
    requires profile in spec.partitions
    ensures plans == before + SpecPlans(spec, tiers, settings, profile)
  {
    var rf := settings.replicationFactor;
    var baseConfigs := map[MIN_ISR := Dec(settings.minInsyncReplicas)];
    var partitions := spec.partitions[profile];
    var configs := baseConfigs[RETENTION := Dec(spec.retentionMs)];
    assert configs == Configs(settings, spec.retentionMs);
    plans := before + [TopicPlan(spec.name, partitions, rf, configs)];
    if spec.retries {
      ghost var head, retried := plans, TierPlans(spec, tiers, settings, profile);
      for t := 0 to |tiers|
        invariant plans == head + retried[..t]
      {
        assert retried[..t + 1] == retried[..t] + [retried[t]];
        plans := plans + [TopicPlan(RetryTopic(spec.name, tiers[t]), Share(partitions, 2), rf, configs)];
      }
      assert retried[..|tiers|] == retried;
    }
    plans := plans + [TopicPlan(DlqTopic(spec.name), Share(partitions, 4), rf,
                                baseConfigs[RETENTION := Dec(DLQ_RETENTION_MS)])];
  }

  /** `planned_topics` of the bootstrap script: over the raw list, with its own configuration dicts. */
  method PlannedTopics(raw: RawRegistry) returns (out: seq<TopicPlan>)
    requires HasProfile(raw, DEV)
    ensures out == Expand(AllSpecs(raw.topics), raw.retryTiers, raw.profiles[DEV], DEV)
  {
    var p := raw.profiles[DEV];
    ghost var specs := AllSpecs(raw.topics);
    out := [];
    for s := 0 to |raw.topics|
      invariant out == Expand(specs[..s], raw.retryTiers, p, DEV)
    {
      assert specs[..s + 1][..s] == specs[..s];
      out := AppendRaw(out, raw.topics[s], raw.retryTiers, p.replicationFactor, p.minInsyncReplicas);
    }
    assert specs[..|specs|] == specs;
  }

  lemma SameConfigs(p: Profile, retentionMs: nat)
    ensures map[RETENTION := Dec(retentionMs), MIN_ISR := Dec(p.minInsyncReplicas)] == Configs(p, retentionMs)
  {
    assert |RETENTION| != |MIN_ISR|;
  }

  /** The body of the loop in `planned_topics`. */
  method AppendRaw(before: seq<TopicPlan>, spec: RawSpec, tiers: seq<Tier>, rf: nat, minIsr: nat)
    returns (out: seq<TopicPlan>)
    requires DEV in spec.partitions
    ensures out == before + SpecPlans(ToSpec(spec), tiers, Profile(rf, minIsr), DEV)
  {
    var configs := map[RETENTION := Dec(spec.retentionMs), MIN_ISR := Dec(minIsr)];
    SameConfigs(Profile(rf, minIsr), spec.retentionMs);
    SameConfigs(Profile(rf, minIsr), DLQ_RETENTION_MS);
    out := before + [TopicPlan(spec.name, spec.partitions[DEV], rf, configs)];
    if spec.retries == Some(true) {
      ghost var head := out;
      for t := 0 to |tiers|
        invariant out == head + TierPlans(ToSpec(spec), tiers, Profile(rf, minIsr), DEV)[..t]
      {
        var name := spec.name + ".retry." + tiers[t];
        assert name == RetryTopic(spec.name, tiers[t]);
        out := out + [TopicPlan(name, Share(spec.partitions[DEV], 2), rf, configs)];
      }
    }
    var dlqConfigs := map[RETENTION := Dec(90 * 24 * 3600 * 1000), MIN_ISR := Dec(minIsr)];
    out := out + [TopicPlan(spec.name + ".dlq", Share(spec.partitions[DEV], 4), rf, dlqConfigs)];
  }

  // ------------------------------------------------------------- duplicate names

  function Size(spec: TopicSpec, tiers: nat): nat {
    2 + if spec.retries then tiers else 0
  }

  function Total(specs: seq<TopicSpec>, tiers: nat): nat {
    if specs == [] then 0 else Size(specs[0], tiers) + Total(specs[1..], tiers)
  }

  lemma {:induction false} TotalSnoc(specs: seq<TopicSpec>, spec: TopicSpec, tiers: nat)
    ensures Total(specs + [spec], tiers) == Total(specs, tiers) + Size(spec, tiers)
  {
    if specs != [] {
      TotalSnoc(specs[1..], spec, tiers);
      assert (specs + [spec])[1..] == specs[1..] + [spec];
    }
  }

  lemma {:induction false} ExpandLength(specs: seq<TopicSpec>, tiers: seq<Tier>, p: Profile, profile: string)
    requires forall i :: 0 <= i < |specs| ==> profile in specs[i].partitions
    ensures |Expand(specs, tiers, p, profile)| == Total(specs, |tiers|)
  {
    if specs != [] {
      ExpandLength(specs[..|specs| - 1], tiers, p, profile);
      TotalSnoc(specs[..|specs| - 1], specs[|specs| - 1], |tiers|);
      assert specs == specs[..|specs| - 1] + [specs[|specs| - 1]];
    }
  }

  lemma {:induction false} PutTotal(specs: seq<TopicSpec>, spec: TopicSpec, tiers: nat)
    ensures Total(Put(specs, spec), tiers) <= Total(specs, tiers) + Size(spec, tiers)
    ensures (exists i :: 0 <= i < |specs| && specs[i].name == spec.name) ==>
              Total(Put(specs, spec), tiers) < Total(specs, tiers) + Size(spec, tiers)
  {
    if specs != [] && specs[0].name != spec.name {
      PutTotal(specs[1..], spec, tiers);
      if i :| 0 <= i < |specs| && specs[i].name == spec.name {
        assert specs[1..][i - 1].name == spec.name;
      }
    }
  }

  lemma {:induction false} DeclaredTotal(topics: seq<RawSpec>, tiers: nat)
    ensures Total(Declared(topics), tiers) <= Total(AllSpecs(topics), tiers)
    ensures !DistinctNames(topics) ==> Total(Declared(topics), tiers) < Total(AllSpecs(topics), tiers)
  {
    if topics != [] {
      var init, last := topics[..|topics| - 1], topics[|topics| - 1];
      DeclaredTotal(init, tiers);
      PutTotal(Declared(init), ToSpec(last), tiers);
      TotalSnoc(AllSpecs(init), ToSpec(last), tiers);
      assert AllSpecs(topics) == AllSpecs(init) + [ToSpec(last)];
      if DistinctNames(init) && !DistinctNames(topics) {
        DeclaredDistinct(init);
        var i := LastRepeats(topics);
      }
    }
  }

  lemma LastRepeats(topics: seq<RawSpec>) returns (i: nat)
    requires topics != [] && DistinctNames(topics[..|topics| - 1]) && !DistinctNames(topics)
    ensures i < |topics| - 1 && Declared(topics[..|topics| - 1])[..] == AllSpecs(topics[..|topics| - 1])
    ensures AllSpecs(topics[..|topics| - 1])[i].name == topics[|topics| - 1].name
  {
    var init := topics[..|topics| - 1];
    DeclaredDistinct(init);
    assert forall k :: 0 <= k < |init| ==> init[k] == topics[k];
    var m, j :| 0 <= m < j < |topics| && topics[m].name == topics[j].name;
    assert j == |init|;
    i := m;
  }

  // ---------------------------------------------------------------- closure

  function Names(plans: seq<TopicPlan>): (names: seq<string>)
    ensures |names| == |plans| && forall i :: 0 <= i < |plans| ==> names[i] == plans[i].name
  {
    seq(|plans|, i requires 0 <= i < |plans| => plans[i].name)
  }

  /** `retry_tier_topics` of the retry pump: retryable specs, outer loop over specs, inner over tiers. */
  function PumpTopics(specs: seq<TopicSpec>, tiers: seq<Tier>): seq<string> {
    if specs == [] then []
    else PumpTopics(specs[..|specs| - 1], tiers)
         + (if specs[|specs| - 1].retries
            then TierTopics(specs[|specs| - 1].name, tiers) else [])
  }

  function RetryTiersAmong(names: seq<string>): seq<string> {
    if names == [] then []
    else RetryTiersAmong(names[..|names| - 1])
         + (if TierOf(names[|names| - 1]).Some? then [names[|names| - 1]] else [])
  }

  lemma {:induction false} RetryTiersAmongConcat(a: seq<string>, b: seq<string>)
    ensures RetryTiersAmong(a + b) == RetryTiersAmong(a) + RetryTiersAmong(b)
  {
    if b == [] {
      assert a + b == a;
    } else {
      RetryTiersAmongConcat(a, b[..|b| - 1]);
      assert (a + b)[..|a + b| - 1] == a + b[..|b| - 1];
    }
  }

  lemma {:induction false} RetryTiersAmongAll(names: seq<string>)
    requires forall i :: 0 <= i < |names| ==> TierOf(names[i]).Some?
    ensures RetryTiersAmong(names) == names
  {
    if names != [] {
      RetryTiersAmongAll(names[..|names| - 1]);
      assert names == names[..|names| - 1] + [names[|names| - 1]];
    }
  }

  function TierTopics(name: string, tiers: seq<Tier>): (topics: seq<string>)
    ensures |topics| == |tiers| && forall i :: 0 <= i < |tiers| ==> topics[i] == RetryTopic(name, tiers[i])
  {
    seq(|tiers|, i requires 0 <= i < |tiers| => RetryTopic(name, tiers[i]))
  }

  lemma TierTopicsAllKept(name: string, tiers: seq<Tier>)
    ensures RetryTiersAmong(TierTopics(name, tiers)) == TierTopics(name, tiers)
  {
    forall i | 0 <= i < |tiers|
      ensures TierOf(TierTopics(name, tiers)[i]).Some?
    {
      RetryTopicSplits(name, tiers[i]);
    }
    RetryTiersAmongAll(TierTopics(name, tiers));
  }

  lemma SpecNames(spec: TopicSpec, tiers: seq<Tier>, p: Profile, profile: string)
    requires profile in spec.partitions
    ensures Names(SpecPlans(spec, tiers, p, profile))
            == [spec.name] + (if spec.retries then TierTopics(spec.name, tiers) else []) + [DlqTopic(spec.name)]
  {
  }

  lemma AmongSandwich(a: string, middle: seq<string>, b: string)
    requires RetryTiersAmong([a]) == [] && RetryTiersAmong([b]) == [] && RetryTiersAmong(middle) == middle
    ensures RetryTiersAmong([a] + middle + [b]) == middle
  {
    RetryTiersAmongConcat([a] + middle, [b]);
    RetryTiersAmongConcat([a], middle);
  }

  lemma SpecRetryTiers(spec: TopicSpec, tiers: seq<Tier>, p: Profile, profile: string)
    requires profile in spec.partitions && SuffixFree(spec.name)
    ensures RetryTiersAmong(Names(SpecPlans(spec, tiers, p, profile)))
            == if spec.retries then TierTopics(spec.name, tiers) else []
  {
    OnlyAmong(spec.name);
    DlqNoRetrySuffix(spec.name);
    OnlyAmong(DlqTopic(spec.name));
    TierTopicsAllKept(spec.name, tiers);
    SpecNames(spec, tiers, p, profile);
    AmongSandwich(spec.name, if spec.retries then TierTopics(spec.name, tiers) else [], DlqTopic(spec.name));
  }

  lemma OnlyAmong(name: string)
    requires TierOf(name).None?
    ensures RetryTiersAmong([name]) == []
  {
    assert [name][..0] == [];
  }

  lemma RetryTiersSplit(a: seq<TopicPlan>, b: seq<TopicPlan>)
    ensures RetryTiersAmong(Names(a + b)) == RetryTiersAmong(Names(a)) + RetryTiersAmong(Names(b))
  {
    assert Names(a + b) == Names(a) + Names(b);
    RetryTiersAmongConcat(Names(a), Names(b));
  }

  /** The pump subscribes to exactly the planned retry tiers, in plan order. */
  lemma {:induction false} PumpDrainsThePlan(specs: seq<TopicSpec>, tiers: seq<Tier>, p: Profile, profile: string)
    requires forall i :: 0 <= i < |specs| ==> profile in specs[i].partitions && SuffixFree(specs[i].name)
    ensures PumpTopics(specs, tiers) == RetryTiersAmong(Names(Expand(specs, tiers, p, profile)))
  {
    if specs != [] {
      var init, last := specs[..|specs| - 1], specs[|specs| - 1];
      PumpDrainsThePlan(init, tiers, p, profile);
      SpecRetryTiers(last, tiers, p, profile);
      RetryTiersSplit(Expand(init, tiers, p, profile), SpecPlans(last, tiers, p, profile));
    }
  }

  lemma {:induction false} ExpandHas(specs: seq<TopicSpec>, tiers: seq<Tier>, p: Profile, profile: string, k: nat, name: string)
    requires forall i :: 0 <= i < |specs| ==> profile in specs[i].partitions
    requires k < |specs| && name in Names(SpecPlans(specs[k], tiers, p, profile))
    ensures name in Names(Expand(specs, tiers, p, profile))
  {
    var init, last := specs[..|specs| - 1], specs[|specs| - 1];
    var a, b := Expand(init, tiers, p, profile), SpecPlans(last, tiers, p, profile);
    assert Names(a + b) == Names(a) + Names(b);
    if k < |specs| - 1 {
      ExpandHas(init, tiers, p, profile, k, name);
    }
  }

  /** Wherever `route` sends a message of a declared topic, that topic is planned. */
  lemma RouteStaysPlanned(specs: seq<TopicSpec>, tiers: Policy, p: Profile, profile: string, k: nat,
                          failure: FailureClass, retryCount: nat, destination: string)
    requires forall i :: 0 <= i < |specs| ==> profile in specs[i].partitions
    requires k < |specs|
    requires Route(tiers, specs[k].name, failure, retryCount, specs[k].retries) == Some(destination)
    ensures destination in Names(Expand(specs, tiers, p, profile))
  {
    RouteIsIn(specs[k], tiers, p, profile, failure, retryCount, destination);
    ExpandHas(specs, tiers, p, profile, k, destination);
  }

  lemma RouteIsIn(spec: TopicSpec, tiers: Policy, p: Profile, profile: string, failure: FailureClass, retryCount: nat, destination: string)
    requires profile in spec.partitions && Route(tiers, spec.name, failure, retryCount, spec.retries) == Some(destination)
    ensures destination in Names(SpecPlans(spec, tiers, p, profile))
  {
    var names := Names(SpecPlans(spec, tiers, p, profile));
    if destination == DlqTopic(spec.name) {
      assert names[|names| - 1] == destination;
    } else {
      assert names[1 + retryCount] == destination;
    }
  }

  /** The two derivations agree for the dev profile exactly when no topic name is declared twice. */
  lemma DerivationsAgree(raw: RawRegistry)
    requires HasProfile(raw, DEV)
    requires forall i :: 0 <= i < |Declared(raw.topics)| ==> DEV in Declared(raw.topics)[i].partitions
    ensures Expand(Declared(raw.topics), raw.retryTiers, raw.profiles[DEV], DEV)
            == Expand(AllSpecs(raw.topics), raw.retryTiers, raw.profiles[DEV], DEV)
            <==> DistinctNames(raw.topics)
  {
    if DistinctNames(raw.topics) {
      DeclaredDistinct(raw.topics);
    } else {
      DeclaredTotal(raw.topics, |raw.retryTiers|);
      ExpandLength(Declared(raw.topics), raw.retryTiers, raw.profiles[DEV], DEV);
      ExpandLength(AllSpecs(raw.topics), raw.retryTiers, raw.profiles[DEV], DEV);
    }
  }

  // ------------------------------------------------------------------ what is planned

  /** Half, or a quarter, of the partitions, but at least one. */
  lemma ShareIs(partitions: nat)
    ensures Share(partitions, 2) == (if partitions < 2 then 1 else partitions / 2)
    ensures Share(partitions, 4) == (if partitions < 4 then 1 else partitions / 4)
  {
  }

  /** One declared topic's plans: itself with its partitions and retention; one retry topic a tier, if it has
      a ladder, with half the partitions and the same retention; and its DLQ with a quarter of them and ninety
      days. All with the profile's replication. */
  lemma SpecPlansAre(spec: TopicSpec, tiers: seq<Tier>, p: Profile, profile: string)
    requires profile in spec.partitions
    ensures var plans, n := SpecPlans(spec, tiers, p, profile), spec.partitions[profile];
            var retried := if spec.retries then |tiers| else 0;
            && |plans| == retried + 2
            && plans[0] == TopicPlan(spec.name, n, p.replicationFactor, ConfigsFor(p, spec.retentionMs))
            && (forall i :: 0 <= i < retried ==>
                  plans[i + 1] == TopicPlan(spec.name + ".retry." + tiers[i], if n < 2 then 1 else n / 2, p.replicationFactor, ConfigsFor(p, spec.retentionMs)))
            && plans[retried + 1] == TopicPlan(spec.name + ".dlq", if n < 4 then 1 else n / 4, p.replicationFactor, ConfigsFor(p, 7_776_000_000))
  {
  }

  function ConfigsFor(p: Profile, retentionMs: nat): map<string, string> {
    map["min.insync.replicas" := Dec(p.minInsyncReplicas), "retention.ms" := Dec(retentionMs)]
  }

  /** A topic has a ladder exactly when the registry says so. */
  lemma LadderIsDeclared(raw: RawSpec)
    ensures ToSpec(raw).retries <==> raw.retries == Some(true)
    ensures ToSpec(raw).name == raw.name && ToSpec(raw).partitions == raw.partitions && ToSpec(raw).retentionMs == raw.retentionMs
  {
  }
}
