/** When the pump puts a message back, and what that means for a claim the message's own dead attempt left
    behind (backend/services/worker_retry_pump/main.py, backend/libs/pipeline/repository.py). */
module Timing {
  import opened Text
  import opened Folds
  import opened Retry
  import opened Messages
  import opened Tables
  import Lineage

  const SECOND: int := 1_000_000

  function DueAt(occurredAt: int, tier: Tier): int {
    occurredAt + TierDelay(tier) * SECOND
  }

  function Later(a: int, b: int): int {
    if a < b then b else a
  }

  class RetryPump {
    var clock: int
    var produced: seq<(string, Record)>

    constructor (clock: int)
      ensures this.clock == clock && produced == []
    {
      this.clock, produced := clock, [];
    }

    /** Sleeps until the tier's delay has passed since the event occurred, then republishes the record
        untouched to its original topic. False is the ValueError of a topic that is no retry tier. */
    method Handle(topic: string, record: Record, occurredAt: int) returns (fine: bool)
      modifies this
      ensures fine <==> exists name, tier: Tier :: topic == RetryTopic(name, tier)
      ensures !fine ==> clock == old(clock) && produced == old(produced)
      ensures fine ==> TierOf(topic).Some? && IsTier(TierOf(topic).value)
                       && clock == Later(old(clock), DueAt(occurredAt, TierOf(topic).value))
                       && produced == old(produced) + [(SourceTopicOf(topic), record)]
    {
      var found := TierOf(topic);
      TierOfSome(topic);
      if found.None? {
        return false;
      }
      fine := true;
      var delay := TierDelay(found.value);
      var dueAt := occurredAt + delay * SECOND;
      var remaining := dueAt - clock;
      if remaining > 0 {
        clock := clock + remaining;
      }
      produced := produced + [(SourceTopicOf(topic), record)];
    }
  }

  // ------------------------------------------------------------- the ladder on a clock

  /** A message with its history, when its event occurred, and when it landed where it is. */
  datatype Timed = Timed(message: Lineage.Tracked, occurredAt: int, at: int)

  datatype Board = Board(now: int, messages: seq<Timed>)

  datatype Action =
    | Publish(origin: string, record: Record, occurredAt: int)
    | Fail(m: Timed, failure: Failure)
    | Pump(m: Timed)
    | Tick(elapsed: nat)

  predicate OnTier(m: Timed) {
    TierOf(m.message.topic).Some? && IsTier(TierOf(m.message.topic).value)
  }

  /** The ladder's steps, each at the time on the clock; the pump republishes once its sleep is over. */
  function Stepped(registry: Registry, policy: Policy, b: Board, a: Action): Board {
    match a
    case Publish(origin, record, occurredAt) =>
      if origin in registry && CountHeaders(record.headers) == 0
      then b.(messages := b.messages + [Timed(Lineage.Tracked(origin, record, origin, [origin], 0), occurredAt, b.now)]) else b
    case Fail(m, failure) =>
      if m in b.messages && !IsDlq(m.message.topic) then
        (match Lineage.Failed(registry, policy, m.message, failure)
         case None => b
         case Some(copy) => b.(messages := b.messages + [Timed(copy, m.occurredAt, b.now)]))
      else b
    case Pump(m) =>
      if m in b.messages && OnTier(m) && DueAt(m.occurredAt, TierOf(m.message.topic).value) <= b.now
      then b.(messages := b.messages + [Timed(Lineage.Pumped(m.message), m.occurredAt, b.now)]) else b
    case Tick(elapsed) => b.(now := b.now + elapsed)
  }

  function Run(registry: Registry, policy: Policy, b: Board, actions: seq<Action>): Board {
    if actions == [] then b
    else Stepped(registry, policy, Run(registry, policy, b, actions[..|actions| - 1]), actions[|actions| - 1])
  }

  /** Back on its own topic, a message is there no earlier than its last tier allows. */
  ghost predicate InTime(registry: Registry, policy: Policy, now: int, m: Timed) {
    && Lineage.OnLadder(registry, policy, m.message) && m.at <= now
    && (m.message.topic == m.message.origin && m.message.failures > 0
        ==> DueAt(m.occurredAt, policy[m.message.failures - 1]) <= m.at)
  }

  ghost predicate AllInTime(registry: Registry, policy: Policy, b: Board) {
    forall m :: m in b.messages ==> InTime(registry, policy, b.now, m)
  }

  lemma PublishedInTime(registry: Registry, policy: Policy, origin: string, record: Record, occurredAt: int, now: int)
    requires Lineage.SuffixFreeNames(registry) && origin in registry && CountHeaders(record.headers) == 0
    ensures InTime(registry, policy, now, Timed(Lineage.Tracked(origin, record, origin, [origin], 0), occurredAt, now))
  {
    Lineage.PublishedOnLadder(registry, policy, origin, record);
  }

  lemma FailedInTime(registry: Registry, policy: Policy, m: Timed, failure: Failure, now: int)
    requires Lineage.SuffixFreeNames(registry) && Lineage.OnLadder(registry, policy, m.message) && !IsDlq(m.message.topic)
    requires Lineage.Failed(registry, policy, m.message, failure).Some?
    ensures InTime(registry, policy, now, Timed(Lineage.Failed(registry, policy, m.message, failure).value, m.occurredAt, now))
  {
    var copy := Lineage.Failed(registry, policy, m.message, failure).value;
    Lineage.FailedOnLadder(registry, policy, m.message, failure);
    SourceOfSuffixFree(m.message.origin);
    Lineage.SourceOnLadder(registry, policy, m.message);
    assert copy.topic != m.message.origin;
  }

  lemma PumpedInTime(registry: Registry, policy: Policy, m: Timed, now: int)
    requires Lineage.SuffixFreeNames(registry) && Lineage.OnLadder(registry, policy, m.message) && OnTier(m)
    requires DueAt(m.occurredAt, TierOf(m.message.topic).value) <= now
    ensures InTime(registry, policy, now, Timed(Lineage.Pumped(m.message), m.occurredAt, now))
  {
    Lineage.PumpedOnLadder(registry, policy, m.message);
    SourceOfSuffixFree(m.message.origin);
    DlqNoRetrySuffix(m.message.origin);
    RetryTopicSplits(m.message.origin, policy[m.message.failures - 1]);
  }

  /** Over every run of workers and pump: a message whose last tier was k is back on its topic no earlier
      than the event's time plus that one tier's delay. */
  lemma {:induction false} BackNoEarlier(registry: Registry, policy: Policy, now: int, actions: seq<Action>)
    requires Lineage.SuffixFreeNames(registry)
    ensures AllInTime(registry, policy, Run(registry, policy, Board(now, []), actions))
  {
    if actions != [] {
      var init, last := actions[..|actions| - 1], actions[|actions| - 1];
      BackNoEarlier(registry, policy, now, init);
      StepInTime(registry, policy, Run(registry, policy, Board(now, []), init), last);
    }
  }

  lemma OneMoreInTime(registry: Registry, policy: Policy, b: Board, m: Timed)
    requires AllInTime(registry, policy, b) && InTime(registry, policy, b.now, m)
    ensures AllInTime(registry, policy, b.(messages := b.messages + [m]))
  {
  }

  lemma FailStepInTime(registry: Registry, policy: Policy, b: Board, m: Timed, failure: Failure)
    requires Lineage.SuffixFreeNames(registry) && AllInTime(registry, policy, b)
    ensures AllInTime(registry, policy, Stepped(registry, policy, b, Fail(m, failure)))
  {
    if m in b.messages && !IsDlq(m.message.topic) && Lineage.Failed(registry, policy, m.message, failure).Some? {
      FailedInTime(registry, policy, m, failure, b.now);
      OneMoreInTime(registry, policy, b, Timed(Lineage.Failed(registry, policy, m.message, failure).value, m.occurredAt, b.now));
    }
  }

  lemma PumpStepInTime(registry: Registry, policy: Policy, b: Board, m: Timed)
    requires Lineage.SuffixFreeNames(registry) && AllInTime(registry, policy, b)
    ensures AllInTime(registry, policy, Stepped(registry, policy, b, Pump(m)))
  {
    if m in b.messages && OnTier(m) && DueAt(m.occurredAt, TierOf(m.message.topic).value) <= b.now {
      PumpedInTime(registry, policy, m, b.now);
      OneMoreInTime(registry, policy, b, Timed(Lineage.Pumped(m.message), m.occurredAt, b.now));
    }
  }

  lemma StepInTime(registry: Registry, policy: Policy, b: Board, a: Action)
    requires Lineage.SuffixFreeNames(registry) && AllInTime(registry, policy, b)
    ensures AllInTime(registry, policy, Stepped(registry, policy, b, a))
  {
    match a
    case Publish(origin, record, occurredAt) =>
      if origin in registry && CountHeaders(record.headers) == 0 {
        PublishedInTime(registry, policy, origin, record, occurredAt, b.now);
        OneMoreInTime(registry, policy, b, Timed(Lineage.Tracked(origin, record, origin, [origin], 0), occurredAt, b.now));
      }
    case Fail(m, failure) => FailStepInTime(registry, policy, b, m, failure);
    case Pump(m) => PumpStepInTime(registry, policy, b, m);
    case Tick(_) =>
  }

  /** When a message that fails at `start`, and then at once on every attempt up to tier k, is back. */
  function BackFrom(policy: Policy, k: nat, start: int, occurredAt: int): int
    requires k < |policy|
  {
    Later(if k == 0 then start else BackFrom(policy, k - 1, start, occurredAt), DueAt(occurredAt, policy[k]))
  }

  /** Every tier is measured from the event itself, so the ladder ends at its largest tier after the event,
      not after the sum of its tiers. */
  lemma {:induction false} LadderEndsAtLargestTier(policy: Policy, k: nat, start: int, occurredAt: int)
    requires k < |policy|
    ensures BackFrom(policy, k, start, occurredAt) == Later(start, DueAt(occurredAt, policy[k]))
  {
    if k > 0 {
      LadderEndsAtLargestTier(policy, k - 1, start, occurredAt);
      assert TierDelay(policy[k - 1]) <= TierDelay(policy[k]);
    }
  }

  lemma RunSnoc(registry: Registry, policy: Policy, b: Board, actions: seq<Action>, a: Action)
    ensures Run(registry, policy, b, actions + [a]) == Stepped(registry, policy, Run(registry, policy, b, actions), a)
  {
    assert (actions + [a])[..|actions|] == actions;
  }

  /** A message on its own topic, here and now, after `failures` failures. */
  ghost predicate BackNow(b: Board, m: Timed, origin: string, failures: nat, occurredAt: int) {
    && m in b.messages && m.at == b.now && m.occurredAt == occurredAt
    && m.message.topic == m.message.origin == origin && m.message.failures == failures
  }

  /** From one attempt to the next: fail, wait out the tier, be pumped back. */
  lemma OneRound(registry: Registry, policy: Policy, b: Board, m: Timed, failure: Failure, copy: Timed)
    requires Lineage.SuffixFreeNames(registry) && m in b.messages && m.at == b.now && Classify(failure.error).Transient?
    requires Lineage.OnLadder(registry, policy, m.message) && m.message.topic == m.message.origin && registry[m.message.origin]
    requires m.message.failures < |policy|
    requires copy == Timed(Lineage.Failed(registry, policy, m.message, failure).value, m.occurredAt, b.now)
    requires Lineage.Failed(registry, policy, m.message, failure).Some?
    ensures OnTier(copy) && TierOf(copy.message.topic) == Some(policy[m.message.failures])
    ensures Lineage.Pumped(copy.message).topic == m.message.origin && copy.message.failures == m.message.failures + 1
    ensures Stepped(registry, policy, b, Fail(m, failure)) == Board(b.now, b.messages + [copy])
  {
    SourceOfSuffixFree(m.message.origin);
    Lineage.TransientClimbs(registry, policy, m.message, failure);
    RetryTopicSplits(m.message.origin, policy[m.message.failures]);
    SuffixesInvert(m.message.origin, policy[m.message.failures]);
  }

  lemma WaitAndPump(registry: Registry, policy: Policy, b: Board, copy: Timed, wait: nat)
    requires copy in b.messages && OnTier(copy) && DueAt(copy.occurredAt, TierOf(copy.message.topic).value) <= b.now + wait
    ensures Stepped(registry, policy, Stepped(registry, policy, b, Tick(wait)), Pump(copy))
            == Board(b.now + wait, b.messages + [Timed(Lineage.Pumped(copy.message), copy.occurredAt, b.now + wait)])
  {
  }

  /** That time is met: some run has the message back then, so the bound is the best there is. */
  lemma {:induction false} SomeRunIsBack(registry: Registry, policy: Policy, origin: string, record: Record, failure: Failure,
                                         k: nat, start: int, occurredAt: int) returns (actions: seq<Action>, m: Timed)
    requires Lineage.SuffixFreeNames(registry) && origin in registry && registry[origin] && CountHeaders(record.headers) == 0
    requires k < |policy| && Classify(failure.error).Transient?
    ensures var b := Run(registry, policy, Board(start, []), actions);
            BackNow(b, m, origin, k + 1, occurredAt) && b.now == BackFrom(policy, k, start, occurredAt)
  {
    if k == 0 {
      var before, was := JustPublished(registry, policy, origin, record, start, occurredAt);
      actions, m := NextBack(registry, policy, start, before, was, failure);
    } else {
      var before, was := SomeRunIsBack(registry, policy, origin, record, failure, k - 1, start, occurredAt);
      actions, m := NextBack(registry, policy, start, before, was, failure);
    }
  }

  lemma NextBack(registry: Registry, policy: Policy, start: int, before: seq<Action>, was: Timed, failure: Failure)
    returns (actions: seq<Action>, m: Timed)
    requires Lineage.SuffixFreeNames(registry) && Classify(failure.error).Transient?
    requires was.message.origin in registry && registry[was.message.origin] && was.message.failures < |policy|
    requires BackNow(Run(registry, policy, Board(start, []), before), was, was.message.origin, was.message.failures, was.occurredAt)
    ensures var b, b' := Run(registry, policy, Board(start, []), before), Run(registry, policy, Board(start, []), actions);
            && BackNow(b', m, was.message.origin, was.message.failures + 1, was.occurredAt)
            && b'.now == Later(b.now, DueAt(was.occurredAt, policy[was.message.failures]))
  {
    BackIsOnLadder(registry, policy, start, before, was);
    actions, m := RoundOn(registry, policy, start, before, Run(registry, policy, Board(start, []), before), was, failure);
  }

  lemma BackIsOnLadder(registry: Registry, policy: Policy, start: int, actions: seq<Action>, m: Timed)
    requires Lineage.SuffixFreeNames(registry) && m in Run(registry, policy, Board(start, []), actions).messages
    ensures Lineage.OnLadder(registry, policy, m.message)
  {
    BackNoEarlier(registry, policy, start, actions);
  }

  lemma JustPublished(registry: Registry, policy: Policy, origin: string, record: Record, start: int, occurredAt: int)
    returns (actions: seq<Action>, m: Timed)
    requires origin in registry && CountHeaders(record.headers) == 0
    ensures var b := Run(registry, policy, Board(start, []), actions); BackNow(b, m, origin, 0, occurredAt) && b.now == start
  {
    actions := [Publish(origin, record, occurredAt)];
    m := Timed(Lineage.Tracked(origin, record, origin, [origin], 0), occurredAt, start);
    RunSnoc(registry, policy, Board(start, []), [], actions[0]);
    assert [] + actions == actions;
  }

  lemma RoundOn(registry: Registry, policy: Policy, start: int, before: seq<Action>, b: Board, was: Timed, failure: Failure)
    returns (actions: seq<Action>, m: Timed)
    requires Lineage.SuffixFreeNames(registry) && Classify(failure.error).Transient? && b == Run(registry, policy, Board(start, []), before)
    requires BackNow(b, was, was.message.origin, was.message.failures, was.occurredAt) && was.message.failures < |policy|
    requires Lineage.OnLadder(registry, policy, was.message) && registry[was.message.origin]
    ensures var b' := Run(registry, policy, Board(start, []), actions);
            && BackNow(b', m, was.message.origin, was.message.failures + 1, was.occurredAt)
            && b'.now == Later(b.now, DueAt(was.occurredAt, policy[was.message.failures]))
  {
    Lineage.TransientClimbs(registry, policy, was.message, failure);
    var copy := Timed(Lineage.Failed(registry, policy, was.message, failure).value, was.occurredAt, b.now);
    var wait := Later(b.now, DueAt(was.occurredAt, policy[was.message.failures])) - b.now;
    OneRound(registry, policy, b, was, failure, copy);
    m := Timed(Lineage.Pumped(copy.message), copy.occurredAt, b.now + wait);
    actions := before + [Fail(was, failure)] + [Tick(wait)] + [Pump(copy)];
    RunThree(registry, policy, Board(start, []), before, Fail(was, failure), Tick(wait), Pump(copy));
    Pumps(registry, policy, b, Board(b.now, b.messages + [copy]), copy, wait, m);
  }

  lemma Pumps(registry: Registry, policy: Policy, b: Board, b1: Board, copy: Timed, wait: nat, m: Timed)
    requires b1 == Board(b.now, b.messages + [copy]) && OnTier(copy)
    requires DueAt(copy.occurredAt, TierOf(copy.message.topic).value) <= b.now + wait
    requires m == Timed(Lineage.Pumped(copy.message), copy.occurredAt, b.now + wait)
    ensures var b' := Stepped(registry, policy, Stepped(registry, policy, b1, Tick(wait)), Pump(copy)); b'.now == b.now + wait && m in b'.messages
  {
    WaitAndPump(registry, policy, b1, copy, wait);
  }

  lemma RunThree(registry: Registry, policy: Policy, b: Board, before: seq<Action>, a1: Action, a2: Action, a3: Action)
    ensures Run(registry, policy, b, before + [a1] + [a2] + [a3])
            == Stepped(registry, policy, Stepped(registry, policy, Stepped(registry, policy, Run(registry, policy, b, before), a1), a2), a3)
  {
    RunSnoc(registry, policy, b, before, a1);
    RunSnoc(registry, policy, b, before + [a1], a2);
    RunSnoc(registry, policy, b, before + [a1] + [a2], a3);
  }

  predicate LeavesClaim(op: Op, video: string, rendition: string) {
    !(op.ClaimRendition? && op.video == video && op.rendition == rendition)
  }

  lemma {:induction false} ClaimUntouched(t: Table, ops: seq<Op>, video: string, rendition: string)
    requires forall op :: op in ops ==> LeavesClaim(op, video, rendition)
    ensures Held(ApplyAll(t, ops), R(video, rendition, ClaimedAt)) == Held(t, R(video, rendition, ClaimedAt))
  {
    if ops != [] {
      ClaimUntouched(t, ops[..|ops| - 1], video, rendition);
      assert ops[|ops| - 1] in ops;
      OthersKeepClaim(ApplyAll(t, ops[..|ops| - 1]), ops[|ops| - 1], video, rendition);
    }
  }

  /** A worker died holding the claim it took at `claimed`. In any run, when the message is back from its
      last tier and a worker asks for the claim then or later, nobody else having claimed meanwhile, it wins
      whenever the abandoned claim is older than the largest tier less the stale window, counted from the
      event. */
  lemma LastRetryWinsBack(registry: Registry, policy: Policy, start: int, actions: seq<Action>, m: Timed,
                          t: Table, ops: seq<Op>, video: string, rendition: string, claimed: int, now: int)
    requires Lineage.SuffixFreeNames(registry) && m in Run(registry, policy, Board(start, []), actions).messages
    requires m.message.topic == m.message.origin && m.message.failures == |policy| && m.at <= now
    requires Held(t, R(video, rendition, ClaimedAt)) == Some(Num(claimed))
    requires forall op :: op in ops ==> LeavesClaim(op, video, rendition)
    requires claimed < DueAt(m.occurredAt, policy[|policy| - 1]) - RENDITION_STALE_AFTER
    ensures WinsRendition(ApplyAll(t, ops), video, rendition, now)
  {
    BackNoEarlier(registry, policy, start, actions);
    ClaimUntouched(t, ops, video, rendition);
  }

  /** The bound is exact: for a message that climbed at once and is claimed the moment it is back, the
      claim is won if and only if the abandoned one is older than that. */
  lemma LastRetryBoundExact(t: Table, ops: seq<Op>, policy: Policy, video: string, rendition: string,
                            occurredAt: int, claimed: int)
    requires HasRendition(ApplyAll(t, ops), video, rendition)
    requires Held(t, R(video, rendition, ClaimedAt)) == Some(Num(claimed))
    requires forall op :: op in ops ==> LeavesClaim(op, video, rendition)
    ensures WinsRendition(ApplyAll(t, ops), video, rendition, BackFrom(policy, |policy| - 1, occurredAt, occurredAt))
            <==> claimed < DueAt(occurredAt, policy[|policy| - 1]) - RENDITION_STALE_AFTER
  {
    LadderEndsAtLargestTier(policy, |policy| - 1, occurredAt, occurredAt);
    ClaimUntouched(t, ops, video, rendition);
  }

  /** With a last tier of ten minutes, in microseconds: the last retry wins exactly against a claim taken
      earlier than five minutes after the event. */
  lemma TenMinuteLadder(t: Table, ops: seq<Op>, policy: Policy, video: string, rendition: string, occurredAt: int, claimed: int)
    requires policy[|policy| - 1] == "10m"
    requires HasRendition(ApplyAll(t, ops), video, rendition) && Held(t, R(video, rendition, ClaimedAt)) == Some(Num(claimed))
    requires forall op :: op in ops ==> LeavesClaim(op, video, rendition)
    ensures BackFrom(policy, |policy| - 1, occurredAt, occurredAt) == occurredAt + 600_000_000
    ensures WinsRendition(ApplyAll(t, ops), video, rendition, occurredAt + 600_000_000) <==> claimed < occurredAt + 300_000_000
  {
    TenMinutes();
    LadderEndsAtLargestTier(policy, |policy| - 1, occurredAt, occurredAt);
    LastRetryBoundExact(t, ops, policy, video, rendition, occurredAt, claimed);
  }

  lemma TenMinutes()
    ensures IsTier("10m") && TierDelay("10m") == 600
  {
    assert Dec(10) == Dec(1) + ['0'] && Dec(1) == ['1'];
    assert Dec(10) + "m" == "10m";
    TierSeconds(10);
  }
}
