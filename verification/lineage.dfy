/** The retry ladder as every message climbs it: failing workers copy upwards, the pump puts messages
    back (backend/libs/pipeline/consumer.py, backend/services/worker_retry_pump/main.py). */
module Lineage {
  import opened Text
  import opened Retry
  import opened Messages
  import opened Topics

  /** A message with its history: the topics its copies went through and how often it failed. */
  datatype Tracked = Tracked(topic: string, record: Record, origin: string, path: seq<string>, failures: nat)

  datatype Action =
    | Publish(origin: string, record: Record)
    | Fail(message: Tracked, failure: Failure)
    | Pump(message: Tracked)

  type Ladder = seq<Tracked>

  /** `publish_raw(source_topic_of(topic), key, value, headers)`: the record goes back untouched. */
  function Pumped(m: Tracked): Tracked {
    var source := SourceTopicOf(m.topic);
    m.(topic := source, path := m.path + [source])
  }

  function Failed(registry: Registry, policy: Policy, m: Tracked, failure: Failure): Option<Tracked> {
    match RouteFailure(registry, policy, m.topic, m.record, failure)
    case Crash => None
    case Copy(destination, record) =>
      Some(m.(topic := destination, record := record, path := m.path + [destination], failures := m.failures + 1))
  }

  /** Messages are never consumed away: any one may be handled any number of times. A dead-lettered
      message has no consumer, and a fresh one carries no retry_count. Impossible actions do nothing. */
  function Step(registry: Registry, policy: Policy, ms: Ladder, action: Action): Ladder {
    match action
    case Publish(origin, record) =>
      if origin in registry && CountHeaders(record.headers) == 0
      then ms + [Tracked(origin, record, origin, [origin], 0)] else ms
    case Fail(m, failure) =>
      if m in ms && !IsDlq(m.topic) then
        (match Failed(registry, policy, m, failure) case None => ms case Some(copy) => ms + [copy])
      else ms
    case Pump(m) =>
      if m in ms && TierOf(m.topic).Some? then ms + [Pumped(m)] else ms
  }

  function Run(registry: Registry, policy: Policy, actions: seq<Action>): Ladder {
    if actions == [] then []
    else Step(registry, policy, Run(registry, policy, actions[..|actions| - 1]), actions[|actions| - 1])
  }

  ghost predicate SuffixFreeNames(registry: Registry) {
    forall name :: name in registry ==> SuffixFree(name)
  }

  /** Everything the ladder promises about one message, by where it is. */
  ghost predicate OnLadder(registry: Registry, policy: Policy, m: Tracked) {
    && m.origin in registry
    && RetryCount(m.record.headers) == Some(m.failures)
    && CountHeaders(m.record.headers) == (if m.failures == 0 then 0 else 1)
    && m.path != [] && m.path[|m.path| - 1] == m.topic
    && if IsDlq(m.topic) then
         && m.topic == DlqTopic(m.origin)
         && 1 <= m.failures <= |policy| + 1
         && RetryTiersAmong(m.path) == TierTopics(m.origin, policy[..m.failures - 1])
       else
         && m.failures <= |policy|
         && (m.topic == m.origin || (1 <= m.failures && m.topic == RetryTopic(m.origin, policy[m.failures - 1])))
         && RetryTiersAmong(m.path) == TierTopics(m.origin, policy[..m.failures])
  }

  lemma CountZero(headers: seq<Header>)
    requires CountHeaders(headers) == 0
    ensures RetryCount(headers) == Some(0)
  {
  }

  lemma PublishedOnLadder(registry: Registry, policy: Policy, origin: string, record: Record)
    requires SuffixFreeNames(registry) && origin in registry && CountHeaders(record.headers) == 0
    ensures OnLadder(registry, policy, Tracked(origin, record, origin, [origin], 0))
  {
    SourceOfSuffixFree(origin);
    CountZero(record.headers);
    OnlyAmong(origin);
  }

  lemma PathGrows(path: seq<string>, topic: string)
    ensures RetryTiersAmong(path + [topic]) == RetryTiersAmong(path) + (if TierOf(topic).Some? then [topic] else [])
  {
    assert (path + [topic])[..|path|] == path;
  }

  lemma PumpedOnLadder(registry: Registry, policy: Policy, m: Tracked)
    requires SuffixFreeNames(registry) && OnLadder(registry, policy, m) && TierOf(m.topic).Some?
    ensures OnLadder(registry, policy, Pumped(m)) && Pumped(m).topic == m.origin
  {
    SourceOfSuffixFree(m.origin);
    DlqNoRetrySuffix(m.origin);
    assert !IsDlq(m.topic);
    RetryTopicSplits(m.origin, policy[m.failures - 1]);
    PathGrows(m.path, m.origin);
  }

  lemma SourceOnLadder(registry: Registry, policy: Policy, m: Tracked)
    requires SuffixFreeNames(registry) && OnLadder(registry, policy, m) && !IsDlq(m.topic)
    ensures SourceTopicOf(m.topic) == m.origin
  {
    SourceOfSuffixFree(m.origin);
    if m.topic != m.origin {
      RetryTopicSplits(m.origin, policy[m.failures - 1]);
    }
  }

  lemma DeadLetterOnLadder(registry: Registry, policy: Policy, m: Tracked, record: Record)
    requires SuffixFreeNames(registry) && OnLadder(registry, policy, m) && !IsDlq(m.topic)
    requires CountHeaders(record.headers) == 1 && RetryCount(record.headers) == Some(m.failures + 1)
    ensures var topic := DlqTopic(m.origin);
            OnLadder(registry, policy, Tracked(topic, record, m.origin, m.path + [topic], m.failures + 1))
  {
    PathGrows(m.path, DlqTopic(m.origin));
    DlqNoRetrySuffix(m.origin);
    AppendedEnds(m.origin, DLQ_MARK);
  }

  lemma NextTierOnLadder(registry: Registry, policy: Policy, m: Tracked, record: Record)
    requires SuffixFreeNames(registry) && OnLadder(registry, policy, m) && !IsDlq(m.topic) && m.failures < |policy|
    requires CountHeaders(record.headers) == 1 && RetryCount(record.headers) == Some(m.failures + 1)
    ensures var topic := RetryTopic(m.origin, policy[m.failures]);
            OnLadder(registry, policy, Tracked(topic, record, m.origin, m.path + [topic], m.failures + 1))
  {
    PathGrows(m.path, RetryTopic(m.origin, policy[m.failures]));
    RetryTopicSplits(m.origin, policy[m.failures]);
    RetryNotDlq(m.origin, policy[m.failures]);
    TierTopicsGrow(m.origin, policy, m.failures);
  }

  lemma FailedOnLadder(registry: Registry, policy: Policy, m: Tracked, failure: Failure)
    requires SuffixFreeNames(registry) && OnLadder(registry, policy, m) && !IsDlq(m.topic)
    requires Failed(registry, policy, m, failure).Some?
    ensures OnLadder(registry, policy, Failed(registry, policy, m, failure).value)
  {
    SourceOnLadder(registry, policy, m);
    CopyCountsOnce(m.record.headers, m.failures, failure, m.origin);
    var record := Failed(registry, policy, m, failure).value.record;
    if Classify(failure.error).Transient? && m.failures < |policy| {
      NextTierOnLadder(registry, policy, m, record);
    } else {
      DeadLetterOnLadder(registry, policy, m, record);
    }
  }

  lemma TierTopicsGrow(name: string, policy: Policy, k: nat)
    requires k < |policy|
    ensures TierTopics(name, policy[..k + 1]) == TierTopics(name, policy[..k]) + [RetryTopic(name, policy[k])]
  {
  }

  /** In every run, every message is on its ladder: a message on the k-th tier (from 0) carries exactly
      one retry_count, equal to k + 1, even when the pump itself failed; tiers are visited in order
      without repeat or gap; a dead letter took at most tiers + 1 failures; names never compound. */
  lemma {:induction false} EveryMessageOnLadder(registry: Registry, policy: Policy, actions: seq<Action>)
    requires SuffixFreeNames(registry)
    ensures forall m :: m in Run(registry, policy, actions) ==> OnLadder(registry, policy, m)
  {
    if actions != [] {
      var init, last := actions[..|actions| - 1], actions[|actions| - 1];
      EveryMessageOnLadder(registry, policy, init);
      var ms := Run(registry, policy, init);
      match last
      case Publish(origin, record) =>
        if origin in registry && CountHeaders(record.headers) == 0 {
          PublishedOnLadder(registry, policy, origin, record);
        }
      case Fail(m, failure) =>
        if m in ms && !IsDlq(m.topic) && Failed(registry, policy, m, failure).Some? {
          FailedOnLadder(registry, policy, m, failure);
        }
      case Pump(m) =>
        if m in ms && TierOf(m.topic).Some? {
          PumpedOnLadder(registry, policy, m);
        }
    }
  }

  /** The reading by tier: whatever sits on a retry topic sits on tier k with the single count k + 1. */
  lemma TierCarriesItsCount(registry: Registry, policy: Policy, actions: seq<Action>, m: Tracked) returns (k: nat)
    requires SuffixFreeNames(registry) && m in Run(registry, policy, actions) && TierOf(m.topic).Some?
    ensures k < |policy| && m.topic == RetryTopic(m.origin, policy[k]) && TierOf(m.topic) == Some(policy[k])
    ensures CountHeaders(m.record.headers) == 1 && RetryCount(m.record.headers) == Some(k + 1)
    ensures RetryTiersAmong(m.path) == TierTopics(m.origin, policy[..k + 1])
  {
    EveryMessageOnLadder(registry, policy, actions);
    SourceOfSuffixFree(m.origin);
    DlqNoRetrySuffix(m.origin);
    k := m.failures - 1;
    RetryTopicSplits(m.origin, policy[k]);
  }

  /** A transient failure of a retryable message is never the end: from the source or any tier it moves
      to the next tier, and only past the last one to the DLQ. */
  lemma TransientClimbs(registry: Registry, policy: Policy, m: Tracked, failure: Failure)
    requires SuffixFreeNames(registry) && OnLadder(registry, policy, m) && !IsDlq(m.topic)
    requires registry[m.origin] && Classify(failure.error).Transient?
    ensures match Failed(registry, policy, m, failure)
            case None => false
            case Some(copy) =>
              && copy.record.key == m.record.key && copy.record.value == m.record.value
              && copy.topic == if m.failures < |policy| then RetryTopic(m.origin, policy[m.failures]) else DlqTopic(m.origin)
  {
    SourceOnLadder(registry, policy, m);
  }
}
