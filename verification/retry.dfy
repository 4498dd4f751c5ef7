/** Failure classification, retry routing and topic-name suffixes (backend/libs/pipeline/retry.py). */
module Retry {
  import opened Text

  /** What a handler or the parser may raise, as far as `classify` can tell it apart. */
  datatype ErrorKind = UnknownEventType | TerminalError | TransientError | OtherError

  datatype FailureClass = Transient | Terminal | Poison

  function Classify(error: ErrorKind): FailureClass {
    match error
    case UnknownEventType => Poison
    case TerminalError => Terminal
    case TransientError => Transient
    case OtherError => Transient
  }

  // --------------------------------------------------------------------- tiers

  const RETRY_MARK: string := ".retry."
  const DLQ_MARK: string := ".dlq"

  /** digits, then one of s, m, h */
  predicate IsTier(tier: string) {
    2 <= |tier| && AllDigits(tier[..|tier| - 1]) && tier[|tier| - 1] in "smh"
  }

  type Tier = t: string | IsTier(t) witness TEN_SECONDS
  const TEN_SECONDS: string := "10s"

  function TierDelay(tier: Tier): nat {
    Undec(tier[..|tier| - 1])
    * (if tier[|tier| - 1] == 's' then 1 else if tier[|tier| - 1] == 'm' then 60 else 3600)
  }

  predicate DelaysSorted(tiers: seq<Tier>) {
    forall i, j :: 0 <= i <= j < |tiers| ==> TierDelay(tiers[i]) <= TierDelay(tiers[j])
  }

  /** What the RetryPolicy constructor accepts: at least one tier, in order of delay. */
  predicate ValidPolicy(tiers: seq<string>) {
    && tiers != []
    && (forall i :: 0 <= i < |tiers| ==> IsTier(tiers[i]))
    && DelaysSorted(tiers)
  }

  type Policy = tiers: seq<Tier> | ValidPolicy(tiers) witness [TEN_SECONDS]

  // ------------------------------------------------------------------- routing

  function RetryTopic(name: string, tier: string): string {
    name + RETRY_MARK + tier
  }

  function DlqTopic(name: string): string {
    name + DLQ_MARK
  }

  /** The topic a failed message goes to, or None when the worker must crash instead. */
  function Route(policy: Policy, source: string, failure: FailureClass, retryCount: nat, retryable: bool): Option<string> {
    if failure.Terminal? || failure.Poison? then Some(DlqTopic(source))
    else if !retryable then None
    else if retryCount >= |policy| then Some(DlqTopic(source))
    else Some(RetryTopic(source, policy[retryCount]))
  }

  predicate IsDlq(topic: string) {
    EndsWith(topic, DLQ_MARK)
  }

  // ------------------------------------------------------------------ suffixes

  /** A whole-string match of `\.retry\.\d+[smh]`. */
  predicate IsRetrySuffix(s: string) {
    StartsWith(s, RETRY_MARK) && IsTier(s[|RETRY_MARK|..])
  }

  /** The leftmost position at which a retry suffix runs to the end of the name. */
  function FindRetry(s: string, from: nat): Option<nat>
    requires from <= |s|
    decreases |s| - from
  {
    if IsRetrySuffix(s[from..]) then Some(from)
    else if from == |s| then None
    else FindRetry(s, from + 1)
  }

  function StripRetry(s: string): string {
    match FindRetry(s, 0)
    case Some(i) => if i <= |s| then s[..i] else s
    case None => s
  }

  function StripDlq(s: string): string {
    if EndsWith(s, DLQ_MARK) then s[..|s| - |DLQ_MARK|] else s
  }

  function SourceTopicOf(topic: string): string {
    StripDlq(StripRetry(topic))
  }

  /** None stands for the ValueError on a name that is no retry-tier topic. */
  function TierOf(topic: string): Option<string> {
    match FindRetry(topic, 0)
    case Some(i) => if i + |RETRY_MARK| <= |topic| then Some(topic[i + |RETRY_MARK|..]) else None
    case None => None
  }

  predicate SuffixFree(name: string) {
    FindRetry(name, 0).None? && !EndsWith(name, DLQ_MARK)
  }

  lemma {:induction false} FindRetryFrom(s: string, from: nat, at: nat)
    requires from <= at <= |s| && IsRetrySuffix(s[at..])
    requires forall j :: from <= j < at ==> !IsRetrySuffix(s[j..])
    ensures FindRetry(s, from) == Some(at)
    decreases at - from
  {
    if from < at {
      FindRetryFrom(s, from + 1, at);
    }
  }

  lemma {:induction false} FindRetryNone(s: string, from: nat)
    requires from <= |s|
    requires forall j :: from <= j <= |s| ==> !IsRetrySuffix(s[j..])
    ensures FindRetry(s, from).None?
    decreases |s| - from
  {
    assert !IsRetrySuffix(s[from..]);
    if from < |s| {
      FindRetryNone(s, from + 1);
    }
  }

  /** The mark's second dot cannot sit among a suffix's digits, so no earlier match exists. */
  lemma NoEarlierSuffix(name: string, tier: string, j: nat)
    requires IsTier(tier) && j < |name|
    ensures !IsRetrySuffix(RetryTopic(name, tier)[j..])
  {
    var s := RetryTopic(name, tier);
    var k := |name| + |RETRY_MARK| - 1 - j;
    assert s[|name| + |RETRY_MARK| - 1] == '.';
    assert s[j..][|RETRY_MARK|..][..|s| - j - |RETRY_MARK| - 1][k - |RETRY_MARK|] == '.';
  }

  lemma RetryTopicSplits(name: string, tier: string)
    requires IsTier(tier)
    ensures FindRetry(RetryTopic(name, tier), 0) == Some(|name|)
    ensures StripRetry(RetryTopic(name, tier)) == name
    ensures TierOf(RetryTopic(name, tier)) == Some(tier)
  {
    var s := RetryTopic(name, tier);
    assert s[|name|..] == RETRY_MARK + tier;
    assert (RETRY_MARK + tier)[|RETRY_MARK|..] == tier;
    assert (RETRY_MARK + tier)[..|RETRY_MARK|] == RETRY_MARK;
    forall j | 0 <= j < |name|
      ensures !IsRetrySuffix(s[j..])
    {
      NoEarlierSuffix(name, tier, j);
    }
    FindRetryFrom(s, 0, |name|);
    assert s[|name| + |RETRY_MARK|..] == tier;
    assert s[..|name|] == name;
  }

  lemma DlqNoRetrySuffix(name: string)
    ensures FindRetry(DlqTopic(name), 0).None?
  {
    var s := DlqTopic(name);
    forall j | 0 <= j <= |s|
      ensures !IsRetrySuffix(s[j..])
    {
      assert j < |s| ==> s[j..][|s| - j - 1] == 'q';
    }
    FindRetryNone(s, 0);
  }

  /** Stripping recovers the name from a retry topic exactly when the name itself is no DLQ name,
      and always from a DLQ topic. */
  lemma SuffixesInvert(name: string, tier: string)
    requires IsTier(tier)
    ensures SourceTopicOf(RetryTopic(name, tier)) == name <==> !IsDlq(name)
    ensures SourceTopicOf(DlqTopic(name)) == name
    ensures TierOf(RetryTopic(name, tier)) == Some(tier) && TierOf(DlqTopic(name)).None?
  {
    RetryTopicSplits(name, tier);
    DlqNoRetrySuffix(name);
    AppendedEnds(name, DLQ_MARK);
  }

  lemma SourceOfSuffixFree(name: string)
    requires SuffixFree(name)
    ensures SourceTopicOf(name) == name && TierOf(name).None? && !IsDlq(name)
  {
  }

  ghost predicate IsSpelling(name: string, topic: string) {
    topic == name || topic == DlqTopic(name) || exists tier :: IsTier(tier) && topic == RetryTopic(name, tier)
  }

  /** Routing a message read from any spelling of a topic yields another first-level spelling of the
      same topic, so names never compound however often a message fails. */
  lemma RouteNeverCompounds(policy: Policy, name: string, topic: string, failure: FailureClass, retryCount: nat, retryable: bool)
    requires SuffixFree(name) && IsSpelling(name, topic)
    ensures SourceTopicOf(topic) == name
    ensures match Route(policy, SourceTopicOf(topic), failure, retryCount, retryable)
            case None => failure.Transient? && !retryable
            case Some(destination) =>
              && IsSpelling(name, destination) && destination != name
              && (IsDlq(destination) <==> failure != Transient || retryCount >= |policy|)
              && (!IsDlq(destination) ==> TierOf(destination) == Some(policy[retryCount]))
  {
    SourceOfSuffixFree(name);
    DlqNoRetrySuffix(name);
    AppendedEnds(name, DLQ_MARK);
    if tier :| IsTier(tier) && topic == RetryTopic(name, tier) {
      SuffixesInvert(name, tier);
    }
    if failure.Transient? && retryable && retryCount < |policy| {
      RetryTopicSplits(name, policy[retryCount]);
      RetryNotDlq(name, policy[retryCount]);
    }
  }

  lemma RetryNotDlq(name: string, tier: string)
    requires IsTier(tier)
    ensures !IsDlq(RetryTopic(name, tier)) && RetryTopic(name, tier) != name && RetryTopic(name, tier) != DlqTopic(name)
  {
    var s := RetryTopic(name, tier);
    assert s[|s| - 1] == tier[|tier| - 1];
    assert s[|s| - |DLQ_MARK|..][|DLQ_MARK| - 1] == s[|s| - 1];
    assert IsDlq(DlqTopic(name)) by { AppendedEnds(name, DLQ_MARK); }
  }

  /** `tier_of` succeeds exactly on the names some tier gives. */
  lemma TierOfSome(topic: string)
    ensures TierOf(topic).Some? <==> exists name, tier: Tier :: topic == RetryTopic(name, tier)
    ensures TierOf(topic).Some? ==> IsTier(TierOf(topic).value)
  {
    if name, tier: Tier :| topic == RetryTopic(name, tier) {
      SuffixesInvert(name, tier);
    }
    FindRetrySound(topic, 0);
    if FindRetry(topic, 0).Some? {
      var i := FindRetry(topic, 0).value;
      SuffixSplits(topic, i, topic[i + |RETRY_MARK|..]);
    }
  }

  lemma SuffixSplits(s: string, i: nat, tier: Tier)
    requires i + |RETRY_MARK| <= |s| && IsRetrySuffix(s[i..]) && tier == s[i + |RETRY_MARK|..]
    ensures s == RetryTopic(s[..i], tier)
  {
    assert s[i..][..|RETRY_MARK|] == RETRY_MARK;
    assert s[i..] == s[i..][..|RETRY_MARK|] + tier;
    assert s == s[..i] + s[i..];
  }

  lemma {:induction false} FindRetrySound(s: string, from: nat)
    requires from <= |s|
    ensures var i := FindRetry(s, from);
            i.Some? ==> i.value + |RETRY_MARK| <= |s| && IsRetrySuffix(s[i.value..]) && IsTier(s[i.value + |RETRY_MARK|..])
    decreases |s| - from
  {
    if IsRetrySuffix(s[from..]) {
      assert s[from..][|RETRY_MARK|..] == s[from + |RETRY_MARK|..];
    } else if from < |s| {
      FindRetrySound(s, from + 1);
    }
  }

  /** A first attempt: an unknown event type or a terminal error goes straight to the DLQ, anything else to
      the first tier, or nowhere if the topic has no ladder. */
  lemma FirstAttempt(policy: Policy, source: string, error: ErrorKind, retryable: bool)
    ensures Route(policy, source, Classify(error), 0, retryable)
            == (if error == UnknownEventType || error == TerminalError then Some(source + ".dlq")
                else if retryable then Some(source + ".retry." + policy[0]) else None)
  {
  }

  /** The tiers' suffixes count seconds. */
  lemma TierSeconds(n: nat)
    ensures IsTier(Dec(n) + "s") && TierDelay(Dec(n) + "s") == n
    ensures IsTier(Dec(n) + "m") && TierDelay(Dec(n) + "m") == 60 * n
    ensures IsTier(Dec(n) + "h") && TierDelay(Dec(n) + "h") == 3600 * n
  {
    UndecDec(n);
    forall unit | unit in {"s", "m", "h"}
      ensures (Dec(n) + unit)[..|Dec(n) + unit| - 1] == Dec(n)
    {
    }
    assert (Dec(n) + "s")[..|Dec(n)|] == Dec(n) && (Dec(n) + "m")[..|Dec(n)|] == Dec(n) && (Dec(n) + "h")[..|Dec(n)|] == Dec(n);
  }
}
