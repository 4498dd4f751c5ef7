/** How many messages one upload can cause when everything keeps failing
    (backend/libs/pipeline/consumer.py, backend/libs/pipeline/retry.py, backend/libs/pipeline/topics.json). */
module Cascade {

  datatype Topic =
    | VideoUploaded | VideoProbed | RenditionRequested | RenditionCompleted
    | VideoCompleted | VideoStatus | PipelineFailed

  datatype Group = Probe | Thumbnail | Packager | Transcode | Notify | Projector

  function Subscribers(t: Topic): seq<Group> {
    match t
    case VideoUploaded => [Probe]
    case VideoProbed => [Thumbnail, Packager]
    case RenditionRequested => [Transcode]
    case RenditionCompleted => [Packager]
    case VideoCompleted => [Notify]
    case VideoStatus => [Projector]
    case PipelineFailed => [Projector, Notify]
  }

  predicate Retryable(t: Topic) {
    !t.VideoStatus? && !t.PipelineFailed?
  }

  /** Stages in pipeline order; a handler only publishes to lower-ranked topics. */
  function Rank(t: Topic): nat {
    match t
    case VideoUploaded => 5
    case VideoProbed => 4
    case RenditionRequested => 4
    case RenditionCompleted => 3
    case VideoCompleted => 2
    case VideoStatus => 1
    case PipelineFailed => 0
  }

  function Repeat(t: Topic, n: nat): (r: seq<Topic>)
    ensures forall i :: 0 <= i < |r| ==> r[i] == t
  {
    seq(n, _ => t)
  }

  /** What a group's handler publishes for one message of a topic, in order, when nothing goes wrong;
      `rungs` is the length of the video's ladder. */
  function Publishes(g: Group, t: Topic, rungs: nat): (ts: seq<Topic>)
    ensures g in Subscribers(t) ==> forall i :: 0 <= i < |ts| ==> Rank(ts[i]) < Rank(t)
  {
    match g
    case Probe => [VideoProbed] + Repeat(RenditionRequested, rungs) + [VideoStatus]
    case Thumbnail => [VideoStatus]
    case Packager => [VideoCompleted, VideoStatus]
    case Transcode => [RenditionCompleted, VideoStatus]
    case Notify => []
    case Projector => []
  }

  /** The rule that keeps failure announcements finite: a worker that consumes pipeline.failed never
      emits it. `rule` false is the pipeline without the rule. */
  predicate Announces(g: Group, rule: bool) {
    !rule || g !in Subscribers(PipelineFailed)
  }

  /** The ladder and the video, fixed for a run. */
  datatype Setting = Setting(tiers: nat, rungs: nat, rule: bool)

  datatype Produced = OnTopic(topic: Topic, count: nat) | OnTier(topic: Topic, count: nat) | OnDlq(topic: Topic)

  /** A message one consumer has yet to take: a group on a source topic, or the pump on a retry tier. */
  datatype Token = AtGroup(group: Group, topic: Topic, count: nat) | AtTier(topic: Topic, count: nat)

  function ForGroups(gs: seq<Group>, t: Topic, count: nat): seq<Token> {
    if gs == [] then [] else [AtGroup(gs[0], t, count)] + ForGroups(gs[1..], t, count)
  }

  /** Every subscribed group takes a source message, whichever of them failed it before. */
  function TokensOf(m: Produced): seq<Token> {
    match m
    case OnTopic(t, count) => ForGroups(Subscribers(t), t, count)
    case OnTier(t, count) => [AtTier(t, count)]
    case OnDlq(t) => []
  }

  /** How a consumer finishes with a message: after publishing the first `sent` of its messages it
      returns, or fails into the next tier, or into the DLQ - then perhaps announcing it. A failure with
      no route crashes the worker and finishes nothing, so it is no ending. */
  datatype Ending = Returns | Retries | DeadLetters(announced: bool)

  datatype Choice = Choice(sent: nat, ending: Ending)

  function Fresh(ts: seq<Topic>): seq<Produced> {
    if ts == [] then [] else [OnTopic(ts[0], 0)] + Fresh(ts[1..])
  }

  predicate Allowed(s: Setting, k: Token, c: Choice) {
    match k
    case AtGroup(g, t, count) =>
      && g in Subscribers(t)
      && c.sent <= |Publishes(g, t, s.rungs)|
      && (c.ending.Returns? ==> c.sent == |Publishes(g, t, s.rungs)|)
      && (c.ending.Retries? ==> Retryable(t) && count < s.tiers)
      && (c.ending.DeadLetters? && c.ending.announced ==> Announces(g, s.rule))
    case AtTier(t, count) =>
      c.sent <= 1 && (c.ending.Returns? ==> c.sent == 1) && (c.ending.Retries? ==> count < s.tiers)
  }

  function EndingOutput(t: Topic, count: nat, e: Ending): seq<Produced> {
    match e
    case Returns => []
    case Retries => [OnTier(t, count + 1)]
    case DeadLetters(announced) => [OnDlq(t)] + if announced then [OnTopic(PipelineFailed, 0)] else []
  }

  function Output(s: Setting, k: Token, c: Choice): seq<Produced>
    requires Allowed(s, k, c)
  {
    match k
    case AtGroup(g, t, count) => Fresh(Publishes(g, t, s.rungs)[..c.sent]) + EndingOutput(t, count, c.ending)
    // The pump puts the record back with its headers untouched.
    case AtTier(t, count) => (if c.sent == 1 then [OnTopic(t, count)] else []) + EndingOutput(t, count, c.ending)
  }

  function AllTokens(ms: seq<Produced>): seq<Token> {
    if ms == [] then [] else TokensOf(ms[0]) + AllTokens(ms[1..])
  }

  datatype World = World(waiting: seq<Token>, produced: nat, consumed: nat)

  datatype Move = Move(index: nat, choice: Choice)

  function Step(s: Setting, w: World, m: Move): World {
    if m.index < |w.waiting| && Allowed(s, w.waiting[m.index], m.choice) then
      var out := Output(s, w.waiting[m.index], m.choice);
      World(w.waiting[..m.index] + w.waiting[m.index + 1..] + AllTokens(out), w.produced + |out|, w.consumed + 1)
    else w
  }

  function Run(s: Setting, w: World, moves: seq<Move>): World {
    if moves == [] then w else Step(s, Run(s, w, moves[..|moves| - 1]), moves[|moves| - 1])
  }

  const UPLOADED := World([AtGroup(Probe, VideoUploaded, 0)], 0, 0)

  // ------------------------------------------------------------------ the measure

  function Left(s: Setting, count: nat): nat {
    if count <= s.tiers then s.tiers - count else 0
  }

  /** One message and everything it can still cause. */
  function Cost(s: Setting, m: Produced): nat
    requires s.rule
    decreases Rank(m.topic), if m.OnDlq? then 0 else Left(s, m.count), if m.OnTier? then 1 else 0, 3, 0
  {
    match m
    case OnTopic(t, count) => 1 + GroupsWeight(s, Subscribers(t), t, count)
    case OnTier(t, count) => 1 + TierWeight(s, t, count)
    case OnDlq(t) => 1
  }

  function GroupsWeight(s: Setting, gs: seq<Group>, t: Topic, count: nat): nat
    requires s.rule && forall g :: g in gs ==> g in Subscribers(t)
    decreases Rank(t), Left(s, count), 0, 2, |gs|
  {
    if gs == [] then 0 else GroupWeight(s, gs[0], t, count) + GroupsWeight(s, gs[1..], t, count)
  }

  function AnnouncementCost(s: Setting, t: Topic): nat
    requires s.rule && 0 < Rank(t)
    decreases Rank(t), 0, 0, 0, 0
  {
    Cost(s, OnTopic(PipelineFailed, 0))
  }

  function GroupWeight(s: Setting, g: Group, t: Topic, count: nat): nat
    requires s.rule && g in Subscribers(t)
    decreases Rank(t), Left(s, count), 0, 1, 0
  {
    FreshCost(s, Publishes(g, t, s.rungs), Rank(t))
    + (if Retryable(t) && count < s.tiers then Cost(s, OnTier(t, count + 1)) else 0)
    + 1
    + (if Announces(g, s.rule) then AnnouncementCost(s, t) else 0)
  }

  function TierWeight(s: Setting, t: Topic, count: nat): nat
    requires s.rule
    decreases Rank(t), Left(s, count), 1, 1, 0
  {
    Cost(s, OnTopic(t, count))
    + (if count < s.tiers then Cost(s, OnTier(t, count + 1)) else 0)
    + 1
    + (if 0 < Rank(t) then AnnouncementCost(s, t) else 0)
  }

  function FreshCost(s: Setting, ts: seq<Topic>, below: nat): nat
    requires s.rule && forall i :: 0 <= i < |ts| ==> Rank(ts[i]) < below
    decreases below, 0, 0, 0, |ts|
  {
    if ts == [] then 0 else Cost(s, OnTopic(ts[0], 0)) + FreshCost(s, ts[1..], below)
  }

  predicate Sound(k: Token) {
    match k
    case AtGroup(g, t, _) => g in Subscribers(t)
    case AtTier(t, _) => Retryable(t)
  }

  function Weight(s: Setting, k: Token): nat
    requires s.rule && Sound(k)
  {
    match k
    case AtGroup(g, t, count) => GroupWeight(s, g, t, count)
    case AtTier(t, count) => TierWeight(s, t, count)
  }

  predicate AllSound(ks: seq<Token>) {
    forall i :: 0 <= i < |ks| ==> Sound(ks[i])
  }

  function Weights(s: Setting, ks: seq<Token>): nat
    requires s.rule && AllSound(ks)
  {
    if ks == [] then 0 else Weight(s, ks[0]) + Weights(s, ks[1..])
  }

  function Costs(s: Setting, ms: seq<Produced>): nat
    requires s.rule
  {
    if ms == [] then 0 else Cost(s, ms[0]) + Costs(s, ms[1..])
  }

  lemma {:induction false} WeightsConcat(s: Setting, a: seq<Token>, b: seq<Token>)
    requires s.rule && AllSound(a) && AllSound(b)
    ensures AllSound(a + b) && Weights(s, a + b) == Weights(s, a) + Weights(s, b)
  {
    if a == [] {
      assert a + b == b;
    } else {
      WeightsConcat(s, a[1..], b);
      assert (a + b)[1..] == a[1..] + b;
    }
  }

  lemma {:induction false} CostsConcat(s: Setting, a: seq<Produced>, b: seq<Produced>)
    requires s.rule
    ensures Costs(s, a + b) == Costs(s, a) + Costs(s, b)
  {
    if a == [] {
      assert a + b == b;
    } else {
      CostsConcat(s, a[1..], b);
      assert (a + b)[1..] == a[1..] + b;
    }
  }

  lemma {:induction false} GroupTokens(s: Setting, gs: seq<Group>, t: Topic, count: nat)
    requires s.rule && forall g :: g in gs ==> g in Subscribers(t)
    ensures AllSound(ForGroups(gs, t, count)) && Weights(s, ForGroups(gs, t, count)) == GroupsWeight(s, gs, t, count)
    ensures |ForGroups(gs, t, count)| == |gs|
  {
    if gs != [] {
      GroupTokens(s, gs[1..], t, count);
      WeightsConcat(s, [AtGroup(gs[0], t, count)], ForGroups(gs[1..], t, count));
      assert Weights(s, [AtGroup(gs[0], t, count)]) == GroupWeight(s, gs[0], t, count);
    }
  }

  predicate SoundProduced(m: Produced) {
    m.OnTier? ==> Retryable(m.topic)
  }

  /** A message costs itself and its tokens, of which there are at most two. */
  lemma CostOfTokens(s: Setting, m: Produced)
    requires s.rule && SoundProduced(m)
    ensures AllSound(TokensOf(m)) && Cost(s, m) == 1 + Weights(s, TokensOf(m)) && |TokensOf(m)| <= 2
  {
    match m
    case OnTopic(t, count) => GroupTokens(s, Subscribers(t), t, count);
    case OnTier(t, count) => assert Weights(s, [AtTier(t, count)]) == TierWeight(s, t, count);
    case OnDlq(t) =>
  }

  lemma {:induction false} CostsOfTokens(s: Setting, ms: seq<Produced>)
    requires s.rule && forall i :: 0 <= i < |ms| ==> SoundProduced(ms[i])
    ensures AllSound(AllTokens(ms)) && Costs(s, ms) == |ms| + Weights(s, AllTokens(ms))
    ensures |AllTokens(ms)| <= 2 * |ms|
  {
    if ms != [] {
      CostOfTokens(s, ms[0]);
      CostsOfTokens(s, ms[1..]);
      WeightsConcat(s, TokensOf(ms[0]), AllTokens(ms[1..]));
    }
  }

  lemma {:induction false} FreshCosts(s: Setting, ts: seq<Topic>, n: nat, below: nat)
    requires s.rule && n <= |ts| && forall i :: 0 <= i < |ts| ==> Rank(ts[i]) < below
    ensures Costs(s, Fresh(ts[..n])) <= FreshCost(s, ts, below)
    ensures forall i :: 0 <= i < |Fresh(ts[..n])| ==> SoundProduced(Fresh(ts[..n])[i])
  {
    if n > 0 {
      assert ts[..n][1..] == ts[1..][..n - 1];
      FreshCosts(s, ts[1..], n - 1, below);
      assert Fresh(ts[..n])[1..] == Fresh(ts[1..][..n - 1]);
    }
  }

  lemma EndingCosts(s: Setting, t: Topic, count: nat, e: Ending)
    requires s.rule && (e.Retries? ==> Retryable(t) && count < s.tiers)
    requires e.DeadLetters? && e.announced ==> 0 < Rank(t)
    ensures forall i :: 0 <= i < |EndingOutput(t, count, e)| ==> SoundProduced(EndingOutput(t, count, e)[i])
    ensures Costs(s, EndingOutput(t, count, e))
            == match e
               case Returns => 0
               case Retries => Cost(s, OnTier(t, count + 1))
               case DeadLetters(announced) => 1 + if announced then AnnouncementCost(s, t) else 0
  {
    var pf := [OnTopic(PipelineFailed, 0)];
    assert Costs(s, pf[1..]) == 0;
    match e
    case Returns =>
    case Retries => assert Costs(s, [OnTier(t, count + 1)][1..]) == 0;
    case DeadLetters(announced) =>
      assert ([OnDlq(t)] + pf)[1..] == pf;
      assert Costs(s, [OnDlq(t)][1..]) == 0;
  }

  lemma RankedAnnouncers(g: Group, t: Topic)
    requires g in Subscribers(t) && Announces(g, true)
    ensures 0 < Rank(t)
  {
  }

  /** Whatever a consumer does with a message, its outputs cost no more than the message was worth. */
  lemma OutputWithinWeight(s: Setting, k: Token, c: Choice)
    requires s.rule && Sound(k) && Allowed(s, k, c)
    ensures Costs(s, Output(s, k, c)) <= Weight(s, k)
    ensures forall i :: 0 <= i < |Output(s, k, c)| ==> SoundProduced(Output(s, k, c)[i])
  {
    match k
    case AtGroup(g, t, count) =>
      var ts := Publishes(g, t, s.rungs);
      FreshCosts(s, ts, c.sent, Rank(t));
      if Announces(g, s.rule) { RankedAnnouncers(g, t); }
      EndingCosts(s, t, count, c.ending);
      CostsConcat(s, Fresh(ts[..c.sent]), EndingOutput(t, count, c.ending));
    case AtTier(t, count) =>
      EndingCosts(s, t, count, c.ending);
      var back := if c.sent == 1 then [OnTopic(t, count)] else [];
      assert Costs(s, back) <= Cost(s, OnTopic(t, count));
      CostsConcat(s, back, EndingOutput(t, count, c.ending));
  }

  ghost predicate Within(s: Setting, w: World, budget: nat)
    requires s.rule
  {
    && AllSound(w.waiting)
    && w.produced + Weights(s, w.waiting) <= budget
    && w.consumed + |w.waiting| <= 1 + 2 * w.produced
  }

  function Without(ks: seq<Token>, i: nat): seq<Token>
    requires i < |ks|
  {
    ks[..i] + ks[i + 1..]
  }

  lemma {:induction false} WithoutWeight(s: Setting, ks: seq<Token>, i: nat)
    requires s.rule && AllSound(ks) && i < |ks|
    ensures AllSound(Without(ks, i)) && Weights(s, ks) == Weights(s, Without(ks, i)) + Weight(s, ks[i])
  {
    if i == 0 {
      assert Without(ks, 0) == ks[1..];
    } else {
      WithoutWeight(s, ks[1..], i - 1);
      assert Without(ks, i)[1..] == Without(ks[1..], i - 1);
    }
  }

  lemma StepWithin(s: Setting, w: World, m: Move, budget: nat)
    requires s.rule && Within(s, w, budget)
    ensures Within(s, Step(s, w, m), budget)
  {
    if m.index < |w.waiting| && Allowed(s, w.waiting[m.index], m.choice) {
      var k := w.waiting[m.index];
      var out := Output(s, k, m.choice);
      OutputWithinWeight(s, k, m.choice);
      CostsOfTokens(s, out);
      WithoutWeight(s, w.waiting, m.index);
      WeightsConcat(s, Without(w.waiting, m.index), AllTokens(out));
      assert Step(s, w, m).waiting == Without(w.waiting, m.index) + AllTokens(out);
    }
  }

  /** The whole cascade is finite: over every run, however many attempts fail and however often groups
      sharing a topic send each other's messages back up the ladder, one upload causes at most this many
      messages, and hence only so many deliveries. */
  lemma {:induction false} CascadeIsFinite(s: Setting, moves: seq<Move>)
    requires s.rule
    ensures Within(s, Run(s, UPLOADED, moves), GroupWeight(s, Probe, VideoUploaded, 0))
    ensures Run(s, UPLOADED, moves).produced <= GroupWeight(s, Probe, VideoUploaded, 0)
    ensures Run(s, UPLOADED, moves).consumed <= 1 + 2 * GroupWeight(s, Probe, VideoUploaded, 0)
  {
    if moves == [] {
      assert UPLOADED.waiting[1..] == [];
    } else {
      CascadeIsFinite(s, moves[..|moves| - 1]);
      StepWithin(s, Run(s, UPLOADED, moves[..|moves| - 1]), moves[|moves| - 1], GroupWeight(s, Probe, VideoUploaded, 0));
    }
  }

  // ------------------------------------------------------- the topics without a ladder

  /** Nothing of a topic without a ladder is ever on a tier, or is a retry. */
  predicate FirstAttempt(k: Token) {
    k.topic == VideoStatus || k.topic == PipelineFailed ==> k.AtGroup? && k.count == 0
  }

  ghost predicate FirstAttempts(ks: seq<Token>) {
    forall i :: 0 <= i < |ks| ==> FirstAttempt(ks[i])
  }

  predicate FirstProduced(m: Produced) {
    m.OnDlq? || (m.topic == VideoStatus || m.topic == PipelineFailed ==> m.OnTopic? && m.count == 0)
  }

  ghost predicate AllFirst(ms: seq<Produced>) {
    forall i :: 0 <= i < |ms| ==> FirstProduced(ms[i])
  }

  lemma {:induction false} ForGroupsFirst(gs: seq<Group>, t: Topic, count: nat)
    requires t == VideoStatus || t == PipelineFailed ==> count == 0
    ensures FirstAttempts(ForGroups(gs, t, count))
  {
    if gs != [] {
      ForGroupsFirst(gs[1..], t, count);
    }
  }

  lemma TokensFirst(m: Produced)
    requires FirstProduced(m)
    ensures FirstAttempts(TokensOf(m))
  {
    if m.OnTopic? {
      ForGroupsFirst(Subscribers(m.topic), m.topic, m.count);
    }
  }

  lemma {:induction false} AllTokensFirst(ms: seq<Produced>)
    requires AllFirst(ms)
    ensures FirstAttempts(AllTokens(ms))
  {
    if ms != [] {
      TokensFirst(ms[0]);
      AllTokensFirst(ms[1..]);
    }
  }

  lemma {:induction false} FreshFirst(ts: seq<Topic>)
    ensures AllFirst(Fresh(ts))
  {
    if ts != [] {
      FreshFirst(ts[1..]);
    }
  }

  lemma OutputFirst(s: Setting, k: Token, c: Choice)
    requires Allowed(s, k, c) && FirstAttempt(k)
    ensures AllFirst(Output(s, k, c))
  {
    if k.AtGroup? {
      FreshFirst(Publishes(k.group, k.topic, s.rungs)[..c.sent]);
    }
  }

  lemma StepFirst(s: Setting, w: World, m: Move)
    requires FirstAttempts(w.waiting)
    ensures FirstAttempts(Step(s, w, m).waiting)
  {
    if m.index < |w.waiting| && Allowed(s, w.waiting[m.index], m.choice) {
      OutputFirst(s, w.waiting[m.index], m.choice);
      AllTokensFirst(Output(s, w.waiting[m.index], m.choice));
    }
  }

  /** Over every run, with the rule or without it, a status or a failure announcement is handled as a first
      attempt and never retried. */
  lemma {:induction false} NeverRetried(s: Setting, moves: seq<Move>)
    ensures FirstAttempts(Run(s, UPLOADED, moves).waiting)
  {
    if moves != [] {
      NeverRetried(s, moves[..|moves| - 1]);
      StepFirst(s, Run(s, UPLOADED, moves[..|moves| - 1]), moves[|moves| - 1]);
    }
  }

  /** Every other topic's failures may go to every tier. */
  lemma OthersRetried(s: Setting, g: Group, t: Topic, count: nat)
    requires g in Subscribers(t) && t !in {VideoStatus, PipelineFailed}
    ensures Allowed(s, AtGroup(g, t, count), Choice(0, Retries)) <==> count < s.tiers
  {
  }

  // ---------------------------------------------------------- why the rule is needed

  lemma AnnouncedTokens()
    ensures AllTokens([OnDlq(PipelineFailed), OnTopic(PipelineFailed, 0)])
            == [AtGroup(Projector, PipelineFailed, 0), AtGroup(Notify, PipelineFailed, 0)]
    ensures AllTokens([OnDlq(VideoUploaded), OnTopic(PipelineFailed, 0)])
            == [AtGroup(Projector, PipelineFailed, 0), AtGroup(Notify, PipelineFailed, 0)]
  {
    assert [Projector, Notify][1..] == [Notify];
    assert ForGroups([Notify], PipelineFailed, 0) == [AtGroup(Notify, PipelineFailed, 0)];
    var tail := [OnTopic(PipelineFailed, 0)];
    assert tail[1..] == [];
    assert AllTokens(tail) == TokensOf(tail[0]) + AllTokens([]);
    assert [OnDlq(PipelineFailed), OnTopic(PipelineFailed, 0)][1..] == tail;
    assert [OnDlq(VideoUploaded), OnTopic(PipelineFailed, 0)][1..] == tail;
  }

  lemma ProjectorLoops(s: Setting, w: World, i: nat) returns (next: nat)
    requires !s.rule && i < |w.waiting| && w.waiting[i] == AtGroup(Projector, PipelineFailed, 0)
    ensures var w' := Step(s, w, Move(i, Choice(0, DeadLetters(true))));
            && w'.produced == w.produced + 2
            && next < |w'.waiting| && w'.waiting[next] == AtGroup(Projector, PipelineFailed, 0)
  {
    AnnouncedTokens();
    assert Output(s, w.waiting[i], Choice(0, DeadLetters(true))) == [OnDlq(PipelineFailed), OnTopic(PipelineFailed, 0)];
    next := |w.waiting| - 1;
  }

  /** Were consumers of pipeline.failed to announce their own failures, no number would bound the
      messages of one upload. */
  lemma {:induction false} WithoutRuleUnbounded(s: Setting, n: nat) returns (moves: seq<Move>, i: nat)
    requires !s.rule
    ensures n <= Run(s, UPLOADED, moves).produced
    ensures i < |Run(s, UPLOADED, moves).waiting|
    ensures Run(s, UPLOADED, moves).waiting[i] == AtGroup(Projector, PipelineFailed, 0)
  {
    if n == 0 {
      var m := Move(0, Choice(0, DeadLetters(true)));
      AnnouncedTokens();
      assert Output(s, UPLOADED.waiting[0], m.choice) == [OnDlq(VideoUploaded), OnTopic(PipelineFailed, 0)];
      moves, i := [m], 0;
      assert moves[..0] == [];
    } else {
      var before, j := WithoutRuleUnbounded(s, n - 1);
      var m := Move(j, Choice(0, DeadLetters(true)));
      moves := before + [m];
      assert moves[..|moves| - 1] == before;
      i := ProjectorLoops(s, Run(s, UPLOADED, before), j);
    }
  }

  // ------------------------------------------------------------------ the bound itself

  lemma {:induction false} RepeatedCost(s: Setting, t: Topic, n: nat, below: nat)
    requires s.rule && Rank(t) < below
    ensures FreshCost(s, Repeat(t, n), below) == n * Cost(s, OnTopic(t, 0))
  {
    if n > 0 {
      RepeatedCost(s, t, n - 1, below);
      assert Repeat(t, n)[1..] == Repeat(t, n - 1);
    }
  }

  lemma {:induction false} FreshConcat(s: Setting, a: seq<Topic>, b: seq<Topic>, below: nat)
    requires s.rule && forall i :: 0 <= i < |a + b| ==> Rank((a + b)[i]) < below
    ensures (forall i :: 0 <= i < |a| ==> Rank(a[i]) < below) && (forall i :: 0 <= i < |b| ==> Rank(b[i]) < below)
    ensures FreshCost(s, a + b, below) == FreshCost(s, a, below) + FreshCost(s, b, below)
  {
    assert forall i :: 0 <= i < |a| ==> (a + b)[i] == a[i];
    assert forall i :: 0 <= i < |b| ==> (a + b)[|a| + i] == b[i];
    if a == [] {
      assert a + b == b;
    } else {
      assert (a + b)[1..] == a[1..] + b;
      FreshConcat(s, a[1..], b, below);
    }
  }

  lemma OneFresh(s: Setting, t: Topic, below: nat)
    requires s.rule && Rank(t) < below
    ensures FreshCost(s, [t], below) == Cost(s, OnTopic(t, 0))
  {
  }

  lemma TwoFresh(s: Setting, t: Topic, u: Topic, below: nat)
    requires s.rule && Rank(t) < below && Rank(u) < below
    ensures FreshCost(s, [t, u], below) == Cost(s, OnTopic(t, 0)) + Cost(s, OnTopic(u, 0))
  {
    assert [t, u][1..] == [u];
    OneFresh(s, u, below);
  }

  /** The ends of the chain, without a ladder. */
  lemma EndCosts(s: Setting)
    requires s.rule && s.tiers == 0
    ensures Cost(s, OnTopic(PipelineFailed, 0)) == 3 && Cost(s, OnTopic(VideoStatus, 0)) == 2 && Cost(s, OnTopic(VideoCompleted, 0)) == 2
  {
    assert [Projector, Notify][1..] == [Notify];
    assert [Notify][1..] == [];
    assert [Projector][1..] == [];
    assert GroupWeight(s, Projector, PipelineFailed, 0) == 1 && GroupWeight(s, Notify, PipelineFailed, 0) == 1;
    assert GroupsWeight(s, [Projector, Notify], PipelineFailed, 0)
           == GroupWeight(s, Projector, PipelineFailed, 0) + GroupsWeight(s, [Notify], PipelineFailed, 0);
    assert GroupsWeight(s, [], PipelineFailed, 0) == 0;
    assert GroupsWeight(s, [Notify], PipelineFailed, 0) == GroupWeight(s, Notify, PipelineFailed, 0);
    assert GroupsWeight(s, [Projector], VideoStatus, 0) == GroupWeight(s, Projector, VideoStatus, 0);
    assert GroupsWeight(s, [Notify], VideoCompleted, 0) == GroupWeight(s, Notify, VideoCompleted, 0);
  }

  lemma OneGroup(s: Setting, g: Group, t: Topic, count: nat)
    requires s.rule && Subscribers(t) == [g]
    ensures Cost(s, OnTopic(t, count)) == 1 + GroupWeight(s, g, t, count)
  {
    assert [g][1..] == [];
    assert GroupsWeight(s, [], t, count) == 0;
    assert GroupsWeight(s, [g], t, count) == GroupWeight(s, g, t, count) + GroupsWeight(s, [], t, count);
  }

  lemma CompletedCost(s: Setting)
    requires s.rule && s.tiers == 0
    ensures Cost(s, OnTopic(RenditionCompleted, 0)) == 9
  {
    EndCosts(s);
    TwoFresh(s, VideoCompleted, VideoStatus, Rank(RenditionCompleted));
    assert GroupWeight(s, Packager, RenditionCompleted, 0) == 8;
    OneGroup(s, Packager, RenditionCompleted, 0);
  }

  lemma RenditionCosts(s: Setting)
    requires s.rule && s.tiers == 0
    ensures Cost(s, OnTopic(RenditionRequested, 0)) == 16
  {
    EndCosts(s);
    CompletedCost(s);
    TwoFresh(s, RenditionCompleted, VideoStatus, Rank(RenditionRequested));
    assert GroupWeight(s, Transcode, RenditionRequested, 0) == 15;
    OneGroup(s, Transcode, RenditionRequested, 0);
  }

  lemma ProbedCost(s: Setting)
    requires s.rule && s.tiers == 0
    ensures Cost(s, OnTopic(VideoProbed, 0)) == 15
  {
    EndCosts(s);
    OneFresh(s, VideoStatus, Rank(VideoProbed));
    TwoFresh(s, VideoCompleted, VideoStatus, Rank(VideoProbed));
    assert [Thumbnail, Packager][1..] == [Packager];
    assert [Packager][1..] == [];
    assert GroupWeight(s, Thumbnail, VideoProbed, 0) == 6 && GroupWeight(s, Packager, VideoProbed, 0) == 8;
    assert GroupsWeight(s, [Thumbnail, Packager], VideoProbed, 0)
           == GroupWeight(s, Thumbnail, VideoProbed, 0) + GroupsWeight(s, [Packager], VideoProbed, 0);
    assert GroupsWeight(s, [], VideoProbed, 0) == 0;
    assert GroupsWeight(s, [Packager], VideoProbed, 0) == GroupWeight(s, Packager, VideoProbed, 0);
  }

  /** Without a ladder the bound is 21 messages and 16 for each rung, the failures of every group included. */
  lemma BoundWithoutLadder(s: Setting)
    requires s.rule && s.tiers == 0
    ensures GroupWeight(s, Probe, VideoUploaded, 0) == 21 + 16 * s.rungs
  {
    EndCosts(s);
    RenditionCosts(s);
    ProbedCost(s);
    var below := Rank(VideoUploaded);
    var requests := Repeat(RenditionRequested, s.rungs);
    FreshConcat(s, [VideoProbed] + requests, [VideoStatus], below);
    FreshConcat(s, [VideoProbed], requests, below);
    RepeatedCost(s, RenditionRequested, s.rungs, below);
    OneFresh(s, VideoProbed, below);
    OneFresh(s, VideoStatus, below);
  }
}
