/** The consumer loop every stage runs, and a whole consumer group of such loops
    (backend/libs/pipeline/consumer.py, StageWorker). */
module Consumer {
  import opened Text
  import opened Retry
  import opened Messages

  datatype TP = TP(topic: string, partition: nat)

  datatype Loc = Loc(tp: TP, offset: nat)

  /** A record handed to the producer: `from` names the message it is a retry or DLQ copy of, `about` the
      message whose dead letter it announces. */
  datatype Outgoing = Outgoing(from: Option<Loc>, about: Option<Loc>, topic: string, record: Record)

  /** The broker's side. `handled`, `issued`, `delivered` and `lost` only record what happened:
      handlers that returned, copies handed to a producer, records that reached the broker, and records
      that died in the queue of a killed process. */
  datatype Shared = Shared(
    log: map<TP, seq<Record>>,
    committed: map<TP, nat>,
    handled: set<Loc>,
    issued: set<Loc>,
    delivered: seq<Outgoing>,
    lost: seq<Outgoing>)

  /** Handling: the handler runs. Routed: its copy is published, not flushed. Settled: only the commit
      is left; `dead` when the copy went to the DLQ. Doomed: the error has no route and is raised. */
  datatype Phase = Handling | Routed(dead: bool) | Settled(dead: bool) | Doomed

  datatype InFlight = InFlight(loc: Loc, captured: set<TP>, phase: Phase)

  /** One process: its consumer's fetch positions, `_pending`, the message in hand, its producer's queue. */
  datatype Worker = Worker(
    position: map<TP, nat>,
    paused: set<TP>,
    pending: seq<Loc>,
    current: Option<InFlight>,
    outbox: seq<Outgoing>,
    revoked: bool)

  const FRESH := Worker(map[], {}, [], None, [], false)

  datatype Config = Config(registry: Registry, policy: Policy, stage: string, subscribed: seq<string>)

  datatype State = State(shared: Shared, worker: Worker)

  datatype Action =
    | Assign(tp: TP)
    | Revoke(tp: TP)
    | Fetch(tp: TP)
    | Start
    | Succeed
    | Fail(failure: Failure)
    | Flush(count: nat)
    | Emit(event: Record, count: nat)
    | Drain(count: nat)
    | Commit(accepted: bool)
    | Kill

  const PIPELINE_FAILED: string := "pipeline.failed"

  function Announcing(loc: Loc, event: Record): Outgoing {
    Outgoing(None, Some(loc), PIPELINE_FAILED, event)
  }

  predicate InLog(s: Shared, loc: Loc) {
    loc.tp in s.log && loc.offset < |s.log[loc.tp]|
  }

  function RecordAt(s: Shared, loc: Loc): Record
    requires InLog(s, loc)
  {
    s.log[loc.tp][loc.offset]
  }

  function CommittedOf(s: Shared, tp: TP): nat {
    if tp in s.committed then s.committed[tp] else 0
  }

  function Take(outs: seq<Outgoing>, count: nat): seq<Outgoing> {
    if count < |outs| then outs[..count] else outs
  }

  function Leave(outs: seq<Outgoing>, count: nat): seq<Outgoing> {
    if count < |outs| then outs[count..] else []
  }

  /** `flush` delivers some first part of the queue; the worker ignores how much is left. */
  function Flushed(st: State, count: nat): State {
    State(st.shared.(delivered := st.shared.delivered + Take(st.worker.outbox, count)),
          st.worker.(outbox := Leave(st.worker.outbox, count)))
  }

  predicate Idle(w: Worker) {
    w.current.None?
  }

  predicate InPhase(w: Worker, phase: Phase) {
    w.current.Some? && w.current.value.phase == phase
  }

  predicate Fetchable(s: Shared, w: Worker, tp: TP) {
    tp in w.position && tp !in w.paused && InLog(s, Loc(tp, w.position[tp]))
  }

  function Enter(w: Worker, phase: Phase): Worker
    requires w.current.Some?
  {
    w.(current := Some(w.current.value.(phase := phase)))
  }

  /** What an action does; an action that is not possible does nothing. */
  function Step(c: Config, st: State, a: Action): State {
    var s, w := st.shared, st.worker;
    if InPhase(w, Doomed) && !a.Drain? && !a.Kill? then st
    else match a
    case Assign(tp) =>
      // A newly assigned partition starts, unpaused, at the group's committed offset.
      State(s, w.(position := w.position[tp := CommittedOf(s, tp)], paused := w.paused - {tp}))
    case Revoke(tp) =>
      // Queued messages of the partition stay queued.
      State(s, w.(position := w.position - {tp}, revoked := true))
    case Fetch(tp) =>
      if Fetchable(s, w, tp)
      then State(s, w.(pending := w.pending + [Loc(tp, w.position[tp])], position := w.position[tp := w.position[tp] + 1]))
      else st
    case Start =>
      if Idle(w) && w.pending != []
      then State(s, w.(pending := w.pending[1..], revoked := false, paused := w.paused + w.position.Keys,
                       current := Some(InFlight(w.pending[0], w.position.Keys, Handling))))
      else st
    case Succeed =>
      if InPhase(w, Handling)
      then State(s.(handled := s.handled + {w.current.value.loc}),
                 Enter(w, Settled(false)).(paused := w.paused - w.current.value.captured))
      else st
    case Fail(failure) =>
      if InPhase(w, Handling) && InLog(s, w.current.value.loc) then
        var loc := w.current.value.loc;
        var resumed := w.(paused := w.paused - w.current.value.captured);
        match RouteFailure(c.registry, c.policy, loc.tp.topic, RecordAt(s, loc), failure)
        case Crash => State(s, Enter(resumed, Doomed))
        case Copy(destination, record) =>
          State(s.(issued := s.issued + {loc}),
                Enter(resumed, Routed(IsDlq(destination)))
                .(outbox := w.outbox + [Outgoing(Some(loc), None, destination, record)]))
      else st
    case Flush(count) =>
      if w.current.Some? && w.current.value.phase.Routed?
      then Flushed(State(s, Enter(w, Settled(w.current.value.phase.dead))), count)
      else st
    case Emit(event, count) =>
      if InPhase(w, Settled(true)) && PIPELINE_FAILED !in c.subscribed
      then Flushed(State(s, w.(outbox := w.outbox + [Announcing(w.current.value.loc, event)])), count)
      else st
    case Drain(count) => Flushed(st, count)
    case Commit(accepted) =>
      if w.current.Some? && w.current.value.phase.Settled? then
        var loc := w.current.value.loc;
        State(if accepted then s.(committed := s.committed[loc.tp := loc.offset + 1]) else s, w.(current := None))
      else st
    case Kill => State(s.(lost := s.lost + w.outbox), FRESH)
  }

  function Steps(c: Config, st: State, actions: seq<Action>): State {
    if actions == [] then st else Step(c, Steps(c, st, actions[..|actions| - 1]), actions[|actions| - 1])
  }

  // ------------------------------------------------------------- the safety invariant

  predicate HasCopy(outs: seq<Outgoing>, loc: Loc) {
    exists i :: 0 <= i < |outs| && outs[i].from == Some(loc)
  }

  /** A message is done when its handler returned or its copy is on the broker. Read weakly, a copy that
      was merely handed to some producer counts too. */
  predicate Done(s: Shared, loc: Loc, strict: bool) {
    loc in s.handled || if strict then HasCopy(s.delivered, loc) else loc in s.issued
  }

  ghost predicate Covered(s: Shared, strict: bool, ahead: seq<Loc>, tp: TP, upto: nat) {
    forall o: nat :: o < upto ==> Done(s, Loc(tp, o), strict) || Loc(tp, o) in ahead
  }

  function Queue(w: Worker): seq<Loc> {
    (if w.current.Some? then [w.current.value.loc] else []) + w.pending
  }

  ghost predicate SharedOk(s: Shared, strict: bool) {
    forall tp :: Covered(s, strict, [], tp, CommittedOf(s, tp))
  }

  ghost predicate QueueOk(s: Shared, strict: bool, q: seq<Loc>) {
    forall i :: 0 <= i < |q| ==> InLog(s, q[i]) && Covered(s, strict, q[..i], q[i].tp, q[i].offset)
  }

  ghost predicate PositionOk(s: Shared, strict: bool, q: seq<Loc>, position: map<TP, nat>) {
    forall tp :: tp in position ==> Covered(s, strict, q, tp, position[tp])
  }

  ghost predicate PhaseOk(s: Shared, strict: bool, w: Worker) {
    w.current.Some? ==>
      && (w.current.value.phase.Settled? ==> Done(s, w.current.value.loc, strict))
      && (w.current.value.phase.Routed? ==>
            && w.current.value.loc in s.issued
            && (HasCopy(w.outbox, w.current.value.loc) || HasCopy(s.delivered, w.current.value.loc)))
  }

  /** Every message a worker holds or will fetch next has only done messages, or messages the same worker
      holds earlier in its queue, before it in its partition. */
  ghost predicate WorkerOk(s: Shared, strict: bool, w: Worker) {
    QueueOk(s, strict, Queue(w)) && PositionOk(s, strict, Queue(w), w.position) && PhaseOk(s, strict, w)
  }

  /** The broker's history only grows. */
  ghost predicate Grows(s: Shared, t: Shared) {
    && s.handled <= t.handled && s.issued <= t.issued
    && s.delivered <= t.delivered && s.lost <= t.lost
    && (forall tp :: tp in s.log ==> tp in t.log && s.log[tp] <= t.log[tp])
  }

  lemma HasCopyGrows(a: seq<Outgoing>, b: seq<Outgoing>, loc: Loc)
    requires a <= b && HasCopy(a, loc)
    ensures HasCopy(b, loc)
  {
    var i :| 0 <= i < |a| && a[i].from == Some(loc);
    assert b[i] == a[i];
  }

  lemma DoneGrows(s: Shared, t: Shared, loc: Loc, strict: bool)
    requires Grows(s, t) && Done(s, loc, strict)
    ensures Done(t, loc, strict)
  {
    if HasCopy(s.delivered, loc) {
      HasCopyGrows(s.delivered, t.delivered, loc);
    }
  }

  lemma CoveredGrows(s: Shared, t: Shared, strict: bool, ahead: seq<Loc>, more: seq<Loc>, tp: TP, upto: nat)
    requires Grows(s, t) && Covered(s, strict, ahead, tp, upto)
    requires forall l :: l in ahead ==> l in more || Done(t, l, strict)
    ensures Covered(t, strict, more, tp, upto)
  {
    forall o: nat | o < upto
      ensures Done(t, Loc(tp, o), strict) || Loc(tp, o) in more
    {
      if Done(s, Loc(tp, o), strict) {
        DoneGrows(s, t, Loc(tp, o), strict);
      }
    }
  }

  lemma QueueGrows(s: Shared, t: Shared, strict: bool, q: seq<Loc>)
    requires Grows(s, t) && QueueOk(s, strict, q)
    ensures QueueOk(t, strict, q)
  {
    forall i | 0 <= i < |q|
      ensures InLog(t, q[i]) && Covered(t, strict, q[..i], q[i].tp, q[i].offset)
    {
      CoveredGrows(s, t, strict, q[..i], q[..i], q[i].tp, q[i].offset);
    }
  }

  lemma PositionGrows(s: Shared, t: Shared, strict: bool, q: seq<Loc>, more: seq<Loc>, position: map<TP, nat>)
    requires Grows(s, t) && PositionOk(s, strict, q, position)
    requires forall l :: l in q ==> l in more || Done(t, l, strict)
    ensures PositionOk(t, strict, more, position)
  {
    forall tp | tp in position
      ensures Covered(t, strict, more, tp, position[tp])
    {
      CoveredGrows(s, t, strict, q, more, tp, position[tp]);
    }
  }

  lemma SharedGrows(s: Shared, t: Shared, strict: bool)
    requires Grows(s, t) && SharedOk(s, strict) && s.committed == t.committed
    ensures SharedOk(t, strict)
  {
    forall tp
      ensures Covered(t, strict, [], tp, CommittedOf(t, tp))
    {
      CoveredGrows(s, t, strict, [], [], tp, CommittedOf(s, tp));
    }
  }

  /** Other workers' steps never spoil a worker's own guarantee. */
  lemma WorkerUnaffected(s: Shared, t: Shared, strict: bool, w: Worker)
    requires Grows(s, t) && WorkerOk(s, strict, w)
    ensures WorkerOk(t, strict, w)
  {
    QueueGrows(s, t, strict, Queue(w));
    PositionGrows(s, t, strict, Queue(w), Queue(w), w.position);
    if w.current.Some? && w.current.value.phase.Settled? {
      DoneGrows(s, t, w.current.value.loc, strict);
    }
  }

  // -------------------------------------------------------- one lemma per kind of step

  ghost predicate StateOk(st: State, strict: bool) {
    SharedOk(st.shared, strict) && WorkerOk(st.shared, strict, st.worker)
  }

  lemma AssignKeeps(c: Config, st: State, tp: TP, strict: bool)
    requires StateOk(st, strict)
    ensures StateOk(Step(c, st, Assign(tp)), strict)
  {
    var s, q := st.shared, Queue(st.worker);
    CoveredGrows(s, s, strict, [], q, tp, CommittedOf(s, tp));
  }

  lemma QueueSnoc(s: Shared, strict: bool, q: seq<Loc>, l: Loc)
    requires QueueOk(s, strict, q) && InLog(s, l) && Covered(s, strict, q, l.tp, l.offset)
    ensures QueueOk(s, strict, q + [l])
  {
    forall i | 0 <= i < |q + [l]|
      ensures InLog(s, (q + [l])[i]) && Covered(s, strict, (q + [l])[..i], (q + [l])[i].tp, (q + [l])[i].offset)
    {
      assert (q + [l])[..i] == q[..i];
    }
  }

  lemma FetchKeeps(c: Config, st: State, tp: TP, strict: bool)
    requires StateOk(st, strict) && Fetchable(st.shared, st.worker, tp) && !InPhase(st.worker, Doomed)
    ensures StateOk(Step(c, st, Fetch(tp)), strict)
  {
    var s, w := st.shared, st.worker;
    var l := Loc(tp, w.position[tp]);
    var w' := Step(c, st, Fetch(tp)).worker;
    assert Queue(w') == Queue(w) + [l];
    QueueSnoc(s, strict, Queue(w), l);
    PositionGrows(s, s, strict, Queue(w), Queue(w'), w.position);
  }

  lemma StartKeeps(c: Config, st: State, strict: bool)
    requires StateOk(st, strict)
    ensures StateOk(Step(c, st, Start), strict)
  {
    var st' := Step(c, st, Start);
    assert Queue(st'.worker) == Queue(st.worker);
  }

  /** Changing only the broker's history and the phase of the message in hand. */
  lemma PhaseKeeps(st: State, t: State, strict: bool)
    requires StateOk(st, strict) && Grows(st.shared, t.shared) && st.shared.committed == t.shared.committed
    requires Queue(t.worker) == Queue(st.worker) && t.worker.position == st.worker.position
    requires PhaseOk(t.shared, strict, t.worker)
    ensures StateOk(t, strict)
  {
    SharedGrows(st.shared, t.shared, strict);
    QueueGrows(st.shared, t.shared, strict, Queue(st.worker));
    PositionGrows(st.shared, t.shared, strict, Queue(st.worker), Queue(st.worker), st.worker.position);
  }

  lemma TakeLeave(outs: seq<Outgoing>, count: nat)
    ensures Take(outs, count) + Leave(outs, count) == outs
  {
  }

  lemma FlushDelivers(st: State, loc: Loc, count: nat, strict: bool)
    requires (HasCopy(st.worker.outbox, loc) || HasCopy(st.shared.delivered, loc)) && loc in st.shared.issued
    requires strict ==> |st.worker.outbox| <= count
    ensures Done(Flushed(st, count).shared, loc, strict)
  {
    if HasCopy(st.shared.delivered, loc) {
      HasCopyGrows(st.shared.delivered, Flushed(st, count).shared.delivered, loc);
    } else if strict {
      var i :| 0 <= i < |st.worker.outbox| && st.worker.outbox[i].from == Some(loc);
      var d := Flushed(st, count).shared.delivered;
      assert d[|st.shared.delivered| + i] == st.worker.outbox[i];
    }
  }

  lemma SettleKeeps(c: Config, st: State, a: Action, strict: bool)
    requires StateOk(st, strict) && (a.Succeed? || a.Fail? || a.Flush? || a.Emit?)
    requires strict && a.Flush? ==> |st.worker.outbox| <= a.count
    ensures StateOk(Step(c, st, a), strict)
  {
    var t := Step(c, st, a);
    if a.Flush? && st.worker.current.Some? && st.worker.current.value.phase.Routed? {
      FlushDelivers(st, st.worker.current.value.loc, a.count, strict);
    } else if a.Fail? && t.worker.current.Some? && t.worker.current.value.phase.Routed? && t != st {
      assert t.worker.outbox[|st.worker.outbox|].from == Some(t.worker.current.value.loc);
    } else if a.Emit? && t != st {
      DoneGrows(st.shared, t.shared, st.worker.current.value.loc, strict);
    }
    PhaseKeeps(st, t, strict);
  }

  /** Delivering part of the queue, in whatever phase. */
  lemma DrainKeeps(c: Config, st: State, count: nat, strict: bool)
    requires StateOk(st, strict)
    ensures StateOk(Step(c, st, Drain(count)), strict)
  {
    var t := Step(c, st, Drain(count));
    if st.worker.current.Some? {
      var loc := st.worker.current.value.loc;
      if st.worker.current.value.phase.Settled? {
        DoneGrows(st.shared, t.shared, loc, strict);
      }
      if st.worker.current.value.phase.Routed? {
        CopyStays(st, count, loc);
      }
    }
    PhaseKeeps(st, t, strict);
  }

  lemma CopyStays(st: State, count: nat, loc: Loc)
    requires HasCopy(st.worker.outbox, loc) || HasCopy(st.shared.delivered, loc)
    ensures HasCopy(Flushed(st, count).worker.outbox, loc) || HasCopy(Flushed(st, count).shared.delivered, loc)
  {
    var t := Flushed(st, count);
    if HasCopy(st.shared.delivered, loc) {
      HasCopyGrows(st.shared.delivered, t.shared.delivered, loc);
    } else {
      TakeLeave(st.worker.outbox, count);
      var i :| 0 <= i < |st.worker.outbox| && st.worker.outbox[i].from == Some(loc);
      var taken := Take(st.worker.outbox, count);
      if i < |taken| {
        assert t.shared.delivered[|st.shared.delivered| + i].from == Some(loc);
      } else {
        assert t.worker.outbox[i - |taken|].from == Some(loc);
      }
    }
  }

  lemma CommitKeeps(c: Config, st: State, accepted: bool, strict: bool)
    requires StateOk(st, strict) && st.worker.current.Some? && st.worker.current.value.phase.Settled?
    ensures StateOk(Step(c, st, Commit(accepted)), strict)
  {
    var s, w, loc := st.shared, st.worker, st.worker.current.value.loc;
    var t := Step(c, st, Commit(accepted));
    var q, q' := Queue(w), Queue(t.worker);
    assert q == [loc] + q';
    assert q[0] == loc && q[..0] == [];
    forall i | 0 <= i < |q'|
      ensures InLog(t.shared, q'[i]) && Covered(t.shared, strict, q'[..i], q'[i].tp, q'[i].offset)
    {
      assert q[i + 1] == q'[i];
      assert q[..i + 1] == [loc] + q'[..i];
      CoveredGrows(s, t.shared, strict, q[..i + 1], q'[..i], q'[i].tp, q'[i].offset);
    }
    PositionGrows(s, t.shared, strict, q, q', w.position);
    forall tp
      ensures Covered(t.shared, strict, [], tp, CommittedOf(t.shared, tp))
    {
      if accepted && tp == loc.tp {
        CoveredGrows(s, t.shared, strict, [], [], tp, loc.offset);
      } else {
        CoveredGrows(s, t.shared, strict, [], [], tp, CommittedOf(s, tp));
      }
    }
  }

  ghost predicate FlushesDrain(st: State, a: Action) {
    a.Flush? ==> |st.worker.outbox| <= a.count
  }

  /** Any single step of any worker keeps the guarantee; the strict reading needs the flush to drain. */
  lemma StepKeeps(c: Config, st: State, a: Action, strict: bool)
    requires StateOk(st, strict)
    requires strict ==> FlushesDrain(st, a)
    ensures StateOk(Step(c, st, a), strict) && Grows(st.shared, Step(c, st, a).shared)
  {
    match a
    case Assign(tp) => AssignKeeps(c, st, tp, strict);
    case Revoke(tp) =>
    case Fetch(tp) =>
      if Fetchable(st.shared, st.worker, tp) && !InPhase(st.worker, Doomed) { FetchKeeps(c, st, tp, strict); }
    case Start => StartKeeps(c, st, strict);
    case Drain(count) => DrainKeeps(c, st, count, strict);
    case Commit(accepted) =>
      if st.worker.current.Some? && st.worker.current.value.phase.Settled? { CommitKeeps(c, st, accepted, strict); }
    case Kill => SharedGrows(st.shared, Step(c, st, a).shared, strict);
    case _ => SettleKeeps(c, st, a, strict);
  }

  // ---------------------------------------------------------------- the whole group

  /** Workers of one group, numbered; a killed worker starts again fresh under its number. */
  datatype Group = Group(shared: Shared, workers: map<nat, Worker>)

  datatype GroupAction =
    | Act(worker: nat, action: Action)
    | Append(tp: TP, record: Record)

  function WorkerOf(g: Group, i: nat): Worker {
    if i in g.workers then g.workers[i] else FRESH
  }

  function GroupStep(c: Config, g: Group, a: GroupAction): Group {
    match a
    case Act(i, action) =>
      var st := Step(c, State(g.shared, WorkerOf(g, i)), action);
      Group(st.shared, g.workers[i := st.worker])
    case Append(tp, record) =>
      var records := if tp in g.shared.log then g.shared.log[tp] else [];
      g.(shared := g.shared.(log := g.shared.log[tp := records + [record]]))
  }

  function GroupRun(c: Config, actions: seq<GroupAction>): Group {
    if actions == [] then Group(Shared(map[], map[], {}, {}, [], []), map[])
    else GroupStep(c, GroupRun(c, actions[..|actions| - 1]), actions[|actions| - 1])
  }

  ghost predicate GroupOk(g: Group, strict: bool) {
    SharedOk(g.shared, strict) && forall i :: i in g.workers ==> WorkerOk(g.shared, strict, g.workers[i])
  }

  /** Every flush of the run leaves nothing behind. */
  ghost predicate AllFlushesDrain(c: Config, actions: seq<GroupAction>) {
    forall n :: 0 <= n < |actions| && actions[n].Act? ==>
      FlushesDrain(State(GroupRun(c, actions[..n]).shared, WorkerOf(GroupRun(c, actions[..n]), actions[n].worker)), actions[n].action)
  }

  lemma GroupStepKeeps(c: Config, g: Group, a: GroupAction, strict: bool)
    requires GroupOk(g, strict)
    requires strict && a.Act? ==> FlushesDrain(State(g.shared, WorkerOf(g, a.worker)), a.action)
    ensures GroupOk(GroupStep(c, g, a), strict) && Grows(g.shared, GroupStep(c, g, a).shared)
  {
    var g' := GroupStep(c, g, a);
    if a.Act? {
      StepKeeps(c, State(g.shared, WorkerOf(g, a.worker)), a.action, strict);
    } else {
      SharedGrows(g.shared, g'.shared, strict);
    }
    forall i | i in g.workers && (a.Append? || i != a.worker)
      ensures WorkerOk(g'.shared, strict, g.workers[i])
    {
      WorkerUnaffected(g.shared, g'.shared, strict, g.workers[i]);
    }
  }

  lemma {:induction false} GroupRunOk(c: Config, actions: seq<GroupAction>, strict: bool)
    requires strict ==> AllFlushesDrain(c, actions)
    ensures GroupOk(GroupRun(c, actions), strict)
  {
    if actions != [] {
      var init := actions[..|actions| - 1];
      if strict {
        forall n | 0 <= n < |init| && init[n].Act?
          ensures FlushesDrain(State(GroupRun(c, init[..n]).shared, WorkerOf(GroupRun(c, init[..n]), init[n].worker)), init[n].action)
        {
          assert init[..n] == actions[..n] && init[n] == actions[n];
        }
      }
      GroupRunOk(c, init, strict);
      GroupStepKeeps(c, GroupRun(c, init), actions[|actions| - 1], strict);
    }
  }

  // ------------------------------------------------------------- copies are faithful

  /** A copy carries its message's key and value unchanged, to the DLQ or a retry tier of its topic. */
  ghost predicate Faithful(c: Config, s: Shared, out: Outgoing) {
    match out.from
    case None => true
    case Some(loc) =>
      && InLog(s, loc)
      && out.record.key == RecordAt(s, loc).key && out.record.value == RecordAt(s, loc).value
      && var source := SourceTopicOf(loc.tp.topic);
         out.topic == DlqTopic(source) || exists k :: 0 <= k < |c.policy| && out.topic == RetryTopic(source, c.policy[k])
  }

  ghost predicate AllFaithful(c: Config, s: Shared, outs: seq<Outgoing>) {
    forall i :: 0 <= i < |outs| ==> Faithful(c, s, outs[i])
  }

  lemma FaithfulGrows(c: Config, s: Shared, t: Shared, outs: seq<Outgoing>)
    requires Grows(s, t) && AllFaithful(c, s, outs)
    ensures AllFaithful(c, t, outs)
  {
  }

  lemma CopyIsFaithful(c: Config, s: Shared, loc: Loc, failure: Failure, topic: string, record: Record)
    requires InLog(s, loc)
    requires RouteFailure(c.registry, c.policy, loc.tp.topic, RecordAt(s, loc), failure) == Copy(topic, record)
    ensures Faithful(c, s, Outgoing(Some(loc), None, topic, record))
  {
  }

  ghost predicate BooksFaithful(c: Config, st: State) {
    && AllFaithful(c, st.shared, st.worker.outbox)
    && AllFaithful(c, st.shared, st.shared.delivered)
    && AllFaithful(c, st.shared, st.shared.lost)
  }

  lemma FlushFaithful(c: Config, st: State, count: nat)
    requires BooksFaithful(c, st)
    ensures BooksFaithful(c, Flushed(st, count))
  {
    var t := Flushed(st, count);
    FaithfulGrows(c, st.shared, t.shared, st.worker.outbox);
    FaithfulGrows(c, st.shared, t.shared, st.shared.delivered);
  }

  lemma StepFaithful(c: Config, st: State, a: Action)
    requires BooksFaithful(c, st)
    ensures BooksFaithful(c, Step(c, st, a))
  {
    var s, w := st.shared, st.worker;
    match a
    case Flush(count) =>
      if w.current.Some? && w.current.value.phase.Routed? {
        FlushFaithful(c, State(s, Enter(w, Settled(w.current.value.phase.dead))), count);
      }
    case Drain(count) => FlushFaithful(c, st, count);
    case Emit(event, count) =>
      if InPhase(w, Settled(true)) && PIPELINE_FAILED !in c.subscribed {
        FlushFaithful(c, State(s, w.(outbox := w.outbox + [Announcing(w.current.value.loc, event)])), count);
      }
    case Fail(failure) => FailFaithful(c, st, failure);
    case _ =>
  }

  lemma FailFaithful(c: Config, st: State, failure: Failure)
    requires BooksFaithful(c, st)
    ensures BooksFaithful(c, Step(c, st, Fail(failure)))
  {
    var s, w := st.shared, st.worker;
    if InPhase(w, Handling) && InLog(s, w.current.value.loc) {
      var loc := w.current.value.loc;
      match RouteFailure(c.registry, c.policy, loc.tp.topic, RecordAt(s, loc), failure)
      case Crash =>
      case Copy(topic, record) => CopyIsFaithful(c, s, loc, failure, topic, record);
    }
  }

  ghost predicate GroupFaithful(c: Config, g: Group) {
    && AllFaithful(c, g.shared, g.shared.delivered)
    && AllFaithful(c, g.shared, g.shared.lost)
    && forall i :: i in g.workers ==> AllFaithful(c, g.shared, g.workers[i].outbox)
  }

  // ------------------------------------------------------------- copies are conserved

  predicate CopyAt(g: Group, i: nat, loc: Loc) {
    i in g.workers && HasCopy(g.workers[i].outbox, loc)
  }

  /** Where an issued copy can be: on the broker, in a live producer's queue, or gone with a killed process. */
  ghost predicate Held(g: Group, loc: Loc) {
    HasCopy(g.shared.delivered, loc) || HasCopy(g.shared.lost, loc) || exists i :: CopyAt(g, i, loc)
  }

  ghost predicate Conserved(g: Group) {
    forall loc :: loc in g.shared.issued ==> Held(g, loc)
  }

  ghost predicate HeldHere(st: State, loc: Loc) {
    HasCopy(st.shared.delivered, loc) || HasCopy(st.shared.lost, loc) || HasCopy(st.worker.outbox, loc)
  }

  lemma AppendedCopy(outs: seq<Outgoing>, more: seq<Outgoing>, loc: Loc)
    requires HasCopy(outs, loc) || HasCopy(more, loc)
    ensures HasCopy(outs + more, loc)
  {
    if HasCopy(outs, loc) {
      HasCopyGrows(outs, outs + more, loc);
    } else {
      var i :| 0 <= i < |more| && more[i].from == Some(loc);
      assert (outs + more)[|outs| + i] == more[i];
    }
  }

  lemma FlushHolds(st: State, count: nat, loc: Loc)
    requires HeldHere(st, loc)
    ensures HeldHere(Flushed(st, count), loc)
  {
    if !HasCopy(st.shared.lost, loc) {
      CopyStays(st, count, loc);
    }
  }

  lemma StepHolds(c: Config, st: State, a: Action, loc: Loc)
    requires HeldHere(st, loc)
    ensures HeldHere(Step(c, st, a), loc)
  {
    var s, w := st.shared, st.worker;
    match a
    case Flush(count) =>
      if w.current.Some? && w.current.value.phase.Routed? {
        FlushHolds(State(s, Enter(w, Settled(w.current.value.phase.dead))), count, loc);
      }
    case Drain(count) => FlushHolds(st, count, loc);
    case Emit(event, count) =>
      if InPhase(w, Settled(true)) && PIPELINE_FAILED !in c.subscribed {
        var out := [Announcing(w.current.value.loc, event)];
        if HasCopy(w.outbox, loc) { AppendedCopy(w.outbox, out, loc); }
        FlushHolds(State(s, w.(outbox := w.outbox + out)), count, loc);
      }
    case Kill =>
      if !HasCopy(s.delivered, loc) { AppendedCopy(s.lost, w.outbox, loc); }
    case Fail(failure) =>
      if HasCopy(w.outbox, loc) { HasCopyGrows(w.outbox, w.outbox + Step(c, st, a).worker.outbox[|w.outbox|..], loc); }
    case _ =>
  }

  lemma IssuedIsHeld(c: Config, st: State, a: Action, loc: Loc)
    requires loc in Step(c, st, a).shared.issued && loc !in st.shared.issued
    ensures HeldHere(Step(c, st, a), loc)
  {
    var t := Step(c, st, a);
    assert t.worker.outbox[|st.worker.outbox|].from == Some(loc);
  }

  lemma GroupStepFaithful(c: Config, g: Group, a: GroupAction)
    requires GroupFaithful(c, g) && Grows(g.shared, GroupStep(c, g, a).shared)
    ensures GroupFaithful(c, GroupStep(c, g, a))
  {
    var g' := GroupStep(c, g, a);
    if a.Act? {
      StepFaithful(c, State(g.shared, WorkerOf(g, a.worker)), a.action);
    } else {
      FaithfulGrows(c, g.shared, g'.shared, g.shared.delivered);
      FaithfulGrows(c, g.shared, g'.shared, g.shared.lost);
    }
    forall i | i in g.workers && (a.Append? || i != a.worker)
      ensures AllFaithful(c, g'.shared, g.workers[i].outbox)
    {
      FaithfulGrows(c, g.shared, g'.shared, g.workers[i].outbox);
    }
  }

  lemma GroupStepConserves(c: Config, g: Group, a: GroupAction)
    requires Conserved(g)
    ensures Conserved(GroupStep(c, g, a))
  {
    var g' := GroupStep(c, g, a);
    forall loc | loc in g'.shared.issued
      ensures Held(g', loc)
    {
      StepKeepsHeld(c, g, a, loc);
    }
  }

  lemma StepKeepsHeld(c: Config, g: Group, a: GroupAction, loc: Loc)
    requires loc in g.shared.issued ==> Held(g, loc)
    requires loc in GroupStep(c, g, a).shared.issued
    ensures Held(GroupStep(c, g, a), loc)
  {
    var g' := GroupStep(c, g, a);
    if a.Append? {
      var i :| HasCopy(g.shared.delivered, loc) || HasCopy(g.shared.lost, loc) || CopyAt(g, i, loc);
      assert CopyAt(g, i, loc) ==> CopyAt(g', i, loc);
    } else {
      var st := State(g.shared, WorkerOf(g, a.worker));
      if loc !in g.shared.issued {
        IssuedIsHeld(c, st, a.action, loc);
      } else if HeldHere(st, loc) {
        StepHolds(c, st, a.action, loc);
      } else {
        var i :| CopyAt(g, i, loc);
        assert CopyAt(g', i, loc);
      }
      assert HasCopy(Step(c, st, a.action).worker.outbox, loc) ==> CopyAt(g', a.worker, loc);
    }
  }

  lemma {:induction false} GroupRunBooks(c: Config, actions: seq<GroupAction>)
    ensures GroupFaithful(c, GroupRun(c, actions)) && Conserved(GroupRun(c, actions))
  {
    if actions != [] {
      var init := actions[..|actions| - 1];
      GroupRunBooks(c, init);
      GroupRunOk(c, init, false);
      GroupStepKeeps(c, GroupRun(c, init), actions[|actions| - 1], false);
      GroupStepFaithful(c, GroupRun(c, init), actions[|actions| - 1]);
      GroupStepConserves(c, GroupRun(c, init), actions[|actions| - 1]);
    }
  }

  // -------------------------------------------------- announcements follow dead letters

  predicate AnyOut(outs: seq<Outgoing>, p: Outgoing -> bool) {
    exists i :: 0 <= i < |outs| && p(outs[i])
  }

  lemma SomeGrows(a: seq<Outgoing>, b: seq<Outgoing>, p: Outgoing -> bool)
    ensures AnyOut(a + b, p) <==> AnyOut(a, p) || AnyOut(b, p)
  {
    if i :| 0 <= i < |a + b| && p((a + b)[i]) {
      if i < |a| { assert p(a[i]); } else { assert p(b[i - |a|]); }
    }
    if i :| 0 <= i < |a| && p(a[i]) { assert (a + b)[i] == a[i]; }
    if i :| 0 <= i < |b| && p(b[i]) { assert (a + b)[|a| + i] == b[i]; }
  }

  /** A record like that is on the broker, died in a killed process, or waits in this worker's queue. */
  ghost predicate Produced(st: State, p: Outgoing -> bool) {
    AnyOut(st.shared.delivered, p) || AnyOut(st.shared.lost, p) || AnyOut(st.worker.outbox, p)
  }

  lemma FlushProduced(st: State, count: nat, p: Outgoing -> bool)
    ensures Produced(Flushed(st, count), p) <==> Produced(st, p)
  {
    var outbox := st.worker.outbox;
    SomeGrows(st.shared.delivered, Take(outbox, count), p);
    SomeGrows(Take(outbox, count), Leave(outbox, count), p);
    assert Take(outbox, count) + Leave(outbox, count) == outbox;
  }

  lemma QueuedProduced(st: State, out: Outgoing, p: Outgoing -> bool)
    ensures Produced(st.(worker := st.worker.(outbox := st.worker.outbox + [out])), p) <==> Produced(st, p) || p(out)
  {
    SomeGrows(st.worker.outbox, [out], p);
    assert [out][0] == out;
  }

  lemma KillProduced(st: State, p: Outgoing -> bool)
    ensures Produced(State(st.shared.(lost := st.shared.lost + st.worker.outbox), FRESH), p) <==> Produced(st, p)
  {
    SomeGrows(st.shared.lost, st.worker.outbox, p);
  }

  /** What a step adds to what has been produced: the copy a failure routes, or an announcement. */
  function Added(c: Config, st: State, a: Action): Option<Outgoing> {
    match a
    case Fail(failure) =>
      if InPhase(st.worker, Handling) && InLog(st.shared, st.worker.current.value.loc) then
        var loc := st.worker.current.value.loc;
        (match RouteFailure(c.registry, c.policy, loc.tp.topic, RecordAt(st.shared, loc), failure)
         case Crash => None
         case Copy(destination, record) => Some(Outgoing(Some(loc), None, destination, record)))
      else None
    case Emit(event, _) =>
      if InPhase(st.worker, Settled(true)) && PIPELINE_FAILED !in c.subscribed
      then Some(Announcing(st.worker.current.value.loc, event)) else None
    case _ => None
  }

  lemma StepProduced(c: Config, st: State, a: Action, p: Outgoing -> bool)
    ensures Produced(Step(c, st, a), p) <==> Produced(st, p) || (Added(c, st, a).Some? && p(Added(c, st, a).value))
  {
    var s, w := st.shared, st.worker;
    match a
    case Fail(_) =>
      if Added(c, st, a).Some? {
        QueuedProduced(st, Added(c, st, a).value, p);
      }
    case Flush(count) =>
      if w.current.Some? && w.current.value.phase.Routed? {
        FlushProduced(State(s, Enter(w, Settled(w.current.value.phase.dead))), count, p);
      }
    case Emit(event, count) =>
      if Added(c, st, a).Some? {
        QueuedProduced(st, Added(c, st, a).value, p);
        FlushProduced(st.(worker := w.(outbox := w.outbox + [Added(c, st, a).value])), count, p);
      }
    case Drain(count) => FlushProduced(st, count, p);
    case Kill => KillProduced(st, p);
    case _ =>
  }

  /** Somewhere in the group. */
  ghost predicate ProducedIn(g: Group, p: Outgoing -> bool) {
    AnyOut(g.shared.delivered, p) || AnyOut(g.shared.lost, p) || exists i :: i in g.workers && AnyOut(g.workers[i].outbox, p)
  }

  lemma ActProduced(c: Config, g: Group, i: nat, a: Action, p: Outgoing -> bool)
    ensures var added := Added(c, State(g.shared, WorkerOf(g, i)), a);
            ProducedIn(GroupStep(c, g, Act(i, a)), p) <==> ProducedIn(g, p) || (added.Some? && p(added.value))
  {
    var st, g' := State(g.shared, WorkerOf(g, i)), GroupStep(c, g, Act(i, a));
    StepProduced(c, st, a, p);
    assert forall k :: k in g.workers && k != i ==> k in g'.workers && g'.workers[k] == g.workers[k];
    assert g'.workers[i] == Step(c, st, a).worker;
    assert forall k :: k in g'.workers && k != i ==> k in g.workers && g'.workers[k] == g.workers[k];
    if k :| k in g.workers && AnyOut(g.workers[k].outbox, p) && k != i { assert k in g'.workers; }
  }

  function DeadLetterOf(loc: Loc): Outgoing -> bool {
    (out: Outgoing) => out.from == Some(loc) && EndsWith(out.topic, ".dlq")
  }

  function AnnouncementOf(loc: Loc): Outgoing -> bool {
    (out: Outgoing) => out.about == Some(loc)
  }

  /** Neither a copy of a message nor an announcement about one. */
  function Stray(): Outgoing -> bool {
    (out: Outgoing) => !(out.from.Some? && out.about.None?) && !(out.from.None? && out.about.Some? && out.topic == "pipeline.failed")
  }

  /** The worker takes the message in hand for dead-lettered. */
  predicate HoldsDead(w: Worker, loc: Loc) {
    w.current.Some? && w.current.value.loc == loc && w.current.value.phase in {Routed(true), Settled(true)}
  }

  lemma DeadComes(c: Config, st: State, a: Action, loc: Loc)
    requires HoldsDead(Step(c, st, a).worker, loc)
    ensures HoldsDead(st.worker, loc) || (Added(c, st, a).Some? && DeadLetterOf(loc)(Added(c, st, a).value))
  {
  }

  ghost predicate DeadFirst(c: Config, g: Group) {
    && (forall loc :: ProducedIn(g, AnnouncementOf(loc)) ==> ProducedIn(g, DeadLetterOf(loc)))
    && (forall i, loc :: i in g.workers && HoldsDead(g.workers[i], loc) ==> ProducedIn(g, DeadLetterOf(loc)))
    && (PIPELINE_FAILED in c.subscribed ==> forall loc :: !ProducedIn(g, AnnouncementOf(loc)))
    && !ProducedIn(g, Stray())
  }

  lemma ActAnnounces(c: Config, g: Group, i: nat, a: Action, loc: Loc)
    requires DeadFirst(c, g)
    ensures var g' := GroupStep(c, g, Act(i, a));
            ProducedIn(g', AnnouncementOf(loc)) ==> ProducedIn(g', DeadLetterOf(loc)) && PIPELINE_FAILED !in c.subscribed
  {
    ActProduced(c, g, i, a, AnnouncementOf(loc));
    ActProduced(c, g, i, a, DeadLetterOf(loc));
    var added := Added(c, State(g.shared, WorkerOf(g, i)), a);
    if added.Some? && added.value.about == Some(loc) {
      assert i in g.workers && HoldsDead(g.workers[i], loc);
    }
  }

  lemma ActHolds(c: Config, g: Group, i: nat, a: Action, k: nat, loc: Loc)
    requires DeadFirst(c, g) && k in GroupStep(c, g, Act(i, a)).workers && HoldsDead(GroupStep(c, g, Act(i, a)).workers[k], loc)
    ensures ProducedIn(GroupStep(c, g, Act(i, a)), DeadLetterOf(loc))
  {
    ActProduced(c, g, i, a, DeadLetterOf(loc));
    if k == i {
      DeadComes(c, State(g.shared, WorkerOf(g, i)), a, loc);
    }
  }

  lemma ActStray(c: Config, g: Group, i: nat, a: Action)
    requires DeadFirst(c, g)
    ensures !ProducedIn(GroupStep(c, g, Act(i, a)), Stray())
  {
    ActProduced(c, g, i, a, Stray());
  }

  lemma GroupStepDeadFirst(c: Config, g: Group, a: GroupAction)
    requires DeadFirst(c, g)
    ensures DeadFirst(c, GroupStep(c, g, a))
  {
    var g' := GroupStep(c, g, a);
    if a.Act? {
      forall loc
        ensures ProducedIn(g', AnnouncementOf(loc)) ==> ProducedIn(g', DeadLetterOf(loc)) && PIPELINE_FAILED !in c.subscribed
      {
        ActAnnounces(c, g, a.worker, a.action, loc);
      }
      forall i, loc | i in g'.workers && HoldsDead(g'.workers[i], loc)
        ensures ProducedIn(g', DeadLetterOf(loc))
      {
        ActHolds(c, g, a.worker, a.action, i, loc);
      }
      ActStray(c, g, a.worker, a.action);
    } else {
      AppendProduced(c, g, a);
    }
  }

  lemma AppendProduced(c: Config, g: Group, a: GroupAction)
    requires a.Append?
    ensures forall p :: ProducedIn(GroupStep(c, g, a), p) <==> ProducedIn(g, p)
  {
  }

  /** Over every run of every group: `pipeline.failed` is announced only for a message of which a copy was
      produced to a topic ending in .dlq, never for one merely sent to a retry tier; never by a group that
      consumes it; and a worker produces nothing else but copies. */
  lemma {:induction false} AnnouncedOnlyWhenDead(c: Config, actions: seq<GroupAction>)
    ensures DeadFirst(c, GroupRun(c, actions))
  {
    if actions != [] {
      AnnouncedOnlyWhenDead(c, actions[..|actions| - 1]);
      GroupStepDeadFirst(c, GroupRun(c, actions[..|actions| - 1]), actions[|actions| - 1]);
    }
  }

  // What one failed turn queues.

  /** All that left this worker, and what waits to. */
  function Queued(st: State): seq<Outgoing> {
    st.shared.delivered + st.worker.outbox
  }

  lemma FlushQueued(st: State, count: nat)
    ensures Queued(Flushed(st, count)) == Queued(st)
  {
    var outbox := st.worker.outbox;
    assert Take(outbox, count) + Leave(outbox, count) == outbox;
    assert Queued(Flushed(st, count)) == st.shared.delivered + (Take(outbox, count) + Leave(outbox, count));
  }

  lemma FailQueued(c: Config, st: State, failure: Failure, count: nat)
    requires InPhase(st.worker, Handling) && InLog(st.shared, st.worker.current.value.loc)
    ensures var loc := st.worker.current.value.loc; var st' := Step(c, Step(c, st, Fail(failure)), Flush(count));
            match RouteFailure(c.registry, c.policy, loc.tp.topic, RecordAt(st.shared, loc), failure)
            case Crash => Queued(st') == Queued(st) && InPhase(st'.worker, Doomed)
            case Copy(destination, copy) =>
              && Queued(st') == Queued(st) + [Outgoing(Some(loc), None, destination, copy)]
              && InPhase(st'.worker, Settled(EndsWith(destination, ".dlq"))) && st'.worker.current.value.loc == loc
  {
    var failed := Step(c, st, Fail(failure));
    if InPhase(failed.worker, Routed(true)) || InPhase(failed.worker, Routed(false)) {
      FlushQueued(State(failed.shared, Enter(failed.worker, Settled(failed.worker.current.value.phase.dead))), count);
    }
  }

  lemma EmitQueued(c: Config, st: State, event: Record, count: nat)
    ensures Queued(Step(c, st, Emit(event, count)))
            == if InPhase(st.worker, Settled(true)) && PIPELINE_FAILED !in c.subscribed
               then Queued(st) + [Announcing(st.worker.current.value.loc, event)] else Queued(st)
  {
    if InPhase(st.worker, Settled(true)) && PIPELINE_FAILED !in c.subscribed {
      var more := st.(worker := st.worker.(outbox := st.worker.outbox + [Announcing(st.worker.current.value.loc, event)]));
      FlushQueued(more, count);
    }
  }

  /** A failed turn without a route queues nothing. With one it queues the copy, and then announces the
      failure if and only if the copy goes to a topic ending in .dlq, the worker does not itself consume
      pipeline.failed, and the payload parses. */
  lemma FailedTurnQueues(c: Config, st: State, failure: Failure, t: Turn)
    requires InPhase(st.worker, Handling) && InLog(st.shared, st.worker.current.value.loc)
    ensures var loc := st.worker.current.value.loc;
            Queued(Steps(c, st, [Fail(failure), Flush(t.flushed)] + Announcement(c, t)))
            == match RouteFailure(c.registry, c.policy, loc.tp.topic, RecordAt(st.shared, loc), failure)
               case Crash => Queued(st)
               case Copy(destination, copy) =>
                 Queued(st) + [Outgoing(Some(loc), None, destination, copy)]
                 + if EndsWith(destination, ".dlq") && "pipeline.failed" !in c.subscribed && t.event.Some?
                   then [Outgoing(None, Some(loc), "pipeline.failed", t.event.value)] else []
  {
    RouteSteps(c, st, failure, t);
    FailQueued(c, st, failure, t.flushed);
    var flushed := Step(c, Step(c, st, Fail(failure)), Flush(t.flushed));
    if t.event.Some? {
      EmitQueued(c, flushed, t.event.value, t.announced);
    }
  }

  // ------------------------------------------------------------------- main results

  /** The message at `loc` is on a retry tier or the DLQ of its topic with key and value unchanged. */
  ghost predicate CopiedFaithfully(c: Config, s: Shared, loc: Loc) {
    exists i :: 0 <= i < |s.delivered| && s.delivered[i].from == Some(loc) && Faithful(c, s, s.delivered[i])
  }

  /** At-least-once: over every run of every group - rebalances at any moment, messages kept in `_pending`
      across a revoke, failed and late commits, crashes for want of a route, hard kills - every offset below
      a partition's committed offset was handled, or copied unchanged to a retry tier or the DLQ, provided
      every flush after a routed failure drains the producer's queue. */
  lemma AtLeastOnce(c: Config, actions: seq<GroupAction>, tp: TP, offset: nat)
    requires AllFlushesDrain(c, actions)
    requires offset < CommittedOf(GroupRun(c, actions).shared, tp)
    ensures var s := GroupRun(c, actions).shared;
            Loc(tp, offset) in s.handled || CopiedFaithfully(c, s, Loc(tp, offset))
  {
    GroupRunOk(c, actions, true);
    GroupRunBooks(c, actions);
    var s, loc := GroupRun(c, actions).shared, Loc(tp, offset);
    assert Covered(s, true, [], tp, CommittedOf(s, tp));
    if loc !in s.handled {
      var i :| 0 <= i < |s.delivered| && s.delivered[i].from == Some(loc);
      assert Faithful(c, s, s.delivered[i]);
    }
  }

  /** With no assumption on `flush`, whose result the worker discards: an offset below the committed one
      is done, or its copy still waits in a live producer, or the copy died in a killed one. */
  lemma EveryOffsetAccounted(c: Config, actions: seq<GroupAction>, tp: TP, offset: nat)
    requires offset < CommittedOf(GroupRun(c, actions).shared, tp)
    ensures var g, loc := GroupRun(c, actions), Loc(tp, offset);
            || loc in g.shared.handled
            || CopiedFaithfully(c, g.shared, loc)
            || (exists i :: CopyAt(g, i, loc))
            || HasCopy(g.shared.lost, loc)
  {
    GroupRunOk(c, actions, false);
    GroupRunBooks(c, actions);
    var g, loc := GroupRun(c, actions), Loc(tp, offset);
    assert Covered(g.shared, false, [], tp, CommittedOf(g.shared, tp));
    if HasCopy(g.shared.delivered, loc) {
      var i :| 0 <= i < |g.shared.delivered| && g.shared.delivered[i].from == Some(loc);
      assert Faithful(c, g.shared, g.shared.delivered[i]);
    }
  }

  /** The copy of the message in hand is the last thing queued, and the only copy anywhere. */
  ghost predicate JustRouted(st: State) {
    && st.worker.current.Some? && st.worker.current.value.phase.Routed?
    && var loc, outbox := st.worker.current.value.loc, st.worker.outbox;
    && loc !in st.shared.handled && !HasCopy(st.shared.delivered, loc)
    && outbox != [] && outbox[|outbox| - 1].from == Some(loc) && !HasCopy(outbox[..|outbox| - 1], loc)
  }

  lemma CopyDelivered(delivered: seq<Outgoing>, outbox: seq<Outgoing>, count: nat, loc: Loc)
    requires outbox != [] && outbox[|outbox| - 1].from == Some(loc)
    requires !HasCopy(outbox[..|outbox| - 1], loc) && !HasCopy(delivered, loc)
    ensures HasCopy(delivered + Take(outbox, count), loc) <==> |outbox| <= count
  {
    CopySplits(delivered, Take(outbox, count), loc);
    if |outbox| > count {
      PrefixCopy(outbox[..count], outbox[..|outbox| - 1], loc);
    }
  }

  lemma PrefixCopy(a: seq<Outgoing>, b: seq<Outgoing>, loc: Loc)
    requires a <= b
    ensures HasCopy(a, loc) ==> HasCopy(b, loc)
  {
    if HasCopy(a, loc) {
      HasCopyGrows(a, b, loc);
    }
  }

  lemma CopySplits(a: seq<Outgoing>, b: seq<Outgoing>, loc: Loc)
    ensures HasCopy(a + b, loc) <==> HasCopy(a, loc) || HasCopy(b, loc)
  {
    if HasCopy(a + b, loc) {
      var i :| 0 <= i < |a + b| && (a + b)[i].from == Some(loc);
      if i < |a| {
        assert a[i].from == Some(loc);
      } else {
        assert b[i - |a|].from == Some(loc);
      }
    }
    if HasCopy(a, loc) || HasCopy(b, loc) {
      AppendedCopy(a, b, loc);
    }
  }

  function FlushedAndDead(c: Config, st: State, count: nat): State {
    Step(c, Step(c, Step(c, st, Flush(count)), Commit(true)), Kill)
  }

  /** The flush, the commit and the end of the process, one after the other. */
  lemma EndState(c: Config, st: State, count: nat)
    requires st.worker.current.Some? && st.worker.current.value.phase.Routed?
    ensures var end, loc := FlushedAndDead(c, st, count).shared, st.worker.current.value.loc;
            && loc.offset < CommittedOf(end, loc.tp) && end.handled == st.shared.handled
            && end.delivered == st.shared.delivered + Take(st.worker.outbox, count)
  {
  }

  lemma RoutedFlushDecides(c: Config, st: State, count: nat)
    requires JustRouted(st)
    ensures var end, loc := FlushedAndDead(c, st, count).shared, st.worker.current.value.loc;
            && loc.offset < CommittedOf(end, loc.tp)
            && (Done(end, loc, true) <==> |st.worker.outbox| <= count)
  {
    EndState(c, st, count);
    CopyDelivered(st.shared.delivered, st.worker.outbox, count, st.worker.current.value.loc);
  }

  /** A message fails for the first time and its error has a route. */
  ghost predicate FailsFirst(c: Config, st: State, failure: Failure) {
    && InPhase(st.worker, Handling) && InLog(st.shared, st.worker.current.value.loc)
    && var loc := st.worker.current.value.loc;
    && loc !in st.shared.handled && !HasCopy(st.shared.delivered, loc) && !HasCopy(st.worker.outbox, loc)
    && RouteFailure(c.registry, c.policy, loc.tp.topic, RecordAt(st.shared, loc), failure).Copy?
  }

  lemma FailRoutes(c: Config, st: State, failure: Failure)
    requires FailsFirst(c, st, failure)
    ensures var t := Step(c, st, Fail(failure));
            JustRouted(t) && t.worker.current.value.loc == st.worker.current.value.loc && |t.worker.outbox| == |st.worker.outbox| + 1
  {
    var t := Step(c, st, Fail(failure));
    assert t.worker.outbox[..|t.worker.outbox| - 1] == st.worker.outbox;
  }

  /** A message fails, is routed, flushed, committed, and the process dies. The committed message survives if
      and only if that one flush delivered everything queued: it returned 0, the value the worker throws
      away. */
  lemma FlushDecides(c: Config, st: State, failure: Failure, count: nat)
    requires FailsFirst(c, st, failure)
    ensures var end, loc := FlushedAndDead(c, Step(c, st, Fail(failure)), count).shared, st.worker.current.value.loc;
            && loc.offset < CommittedOf(end, loc.tp)
            && (Done(end, loc, true) <==> |Step(c, st, Fail(failure)).worker.outbox| <= count)
  {
    FailRoutes(c, st, failure);
    RoutedFlushDecides(c, Step(c, st, Fail(failure)), count);
  }

  /** One more action of a group's only worker. */
  lemma SoloStep(c: Config, actions: seq<GroupAction>, st: State, a: Action)
    requires GroupRun(c, actions).shared == st.shared && WorkerOf(GroupRun(c, actions), 0) == st.worker
    ensures GroupRun(c, actions + [Act(0, a)]).shared == Step(c, st, a).shared
    ensures WorkerOf(GroupRun(c, actions + [Act(0, a)]), 0) == Step(c, st, a).worker
  {
    assert (actions + [Act(0, a)])[..|actions + [Act(0, a)]| - 1] == actions;
  }

  /** A worker that has fetched the only message of a one-record log and started on it. */
  function Started(tp: TP, record: Record): State {
    State(Shared(map[tp := [record]], map[], {}, {}, [], []),
          Worker(map[tp := 1], {tp}, [], Some(InFlight(Loc(tp, 0), {tp}, Handling)), [], false))
  }

  lemma ReachesStarted(c: Config, tp: TP, record: Record) returns (actions: seq<GroupAction>)
    ensures GroupRun(c, actions).shared == Started(tp, record).shared
    ensures WorkerOf(GroupRun(c, actions), 0) == Started(tp, record).worker
  {
    actions := [Append(tp, record)];
    assert actions[..0] == [];
    var st := State(Shared(map[tp := [record]], map[], {}, {}, [], []), FRESH);
    assert [] + [record] == [record];
    assert GroupRun(c, []).shared.log[tp := [record]] == st.shared.log;
    SoloStep(c, actions, st, Assign(tp));
    actions := actions + [Act(0, Assign(tp))];
    st := State(st.shared, FRESH.(position := map[tp := 0]));
    SoloStep(c, actions, st, Fetch(tp));
    actions := actions + [Act(0, Fetch(tp))];
    st := State(st.shared, FRESH.(position := map[tp := 1], pending := [Loc(tp, 0)]));
    SoloStep(c, actions, st, Start);
    actions := actions + [Act(0, Start)];
    assert map[tp := 1].Keys == {tp};
  }

  /** A run reaches the state FlushDecides speaks of. */
  lemma FailureIsReached(c: Config, tp: TP, record: Record, failure: Failure) returns (actions: seq<GroupAction>)
    requires record.headers == [] && failure.error.TerminalError?
    ensures FailsFirst(c, State(GroupRun(c, actions).shared, WorkerOf(GroupRun(c, actions), 0)), failure)
  {
    actions := ReachesStarted(c, tp, record);
    TerminalIsRouted(c, tp, record, failure);
  }

  lemma TerminalIsRouted(c: Config, tp: TP, record: Record, failure: Failure)
    requires record.headers == [] && failure.error.TerminalError?
    ensures var w := Step(c, Started(tp, record), Fail(failure)).worker;
            w.current.Some? && w.current.value.phase.Routed? && w.current.value.loc == Loc(tp, 0)
    ensures var s := Step(c, Started(tp, record), Fail(failure)).shared;
            s.handled == {} && s.delivered == []
  {
  }

  /** The hypothesis on `flush` cannot be dropped: for every configuration there is a run in which a
      dead-lettered message is committed, and is neither handled nor on any topic. */
  lemma UndrainedFlushLoses(c: Config, tp: TP, record: Record, failure: Failure) returns (actions: seq<GroupAction>)
    requires record.headers == [] && failure.error.TerminalError?
    ensures var s := GroupRun(c, actions).shared;
            0 < CommittedOf(s, tp) && Loc(tp, 0) !in s.handled && s.delivered == []
  {
    actions := ReachesStarted(c, tp, record);
    TerminalIsRouted(c, tp, record, failure);
    SoloStep(c, actions, Started(tp, record), Fail(failure));
    actions := LeftoverEnds(c, actions + [Act(0, Fail(failure))], Step(c, Started(tp, record), Fail(failure)));
  }

  lemma LeftoverEnds(c: Config, actions: seq<GroupAction>, st: State) returns (more: seq<GroupAction>)
    requires GroupRun(c, actions).shared == st.shared && WorkerOf(GroupRun(c, actions), 0) == st.worker
    requires st.worker.current.Some? && st.worker.current.value.phase.Routed?
    requires st.shared.handled == {} && st.shared.delivered == []
    ensures var s, loc := GroupRun(c, more).shared, st.worker.current.value.loc;
            loc.offset < CommittedOf(s, loc.tp) && s.handled == {} && s.delivered == []
  {
    EndState(c, st, 0);
    var flushed := Step(c, st, Flush(0));
    var committed := Step(c, flushed, Commit(true));
    SoloStep(c, actions, st, Flush(0));
    more := actions + [Act(0, Flush(0))];
    SoloStep(c, more, flushed, Commit(true));
    more := more + [Act(0, Commit(true))];
    SoloStep(c, more, committed, Kill);
    more := more + [Act(0, Kill)];
  }

  // --------------------------------------------------------------- the worker itself

  lemma {:induction false} StepsConcat(c: Config, st: State, a: seq<Action>, b: seq<Action>)
    ensures Steps(c, st, a + b) == Steps(c, Steps(c, st, a), b)
  {
    if b == [] {
      assert a + b == a;
    } else {
      StepsConcat(c, st, a, b[..|b| - 1]);
      assert (a + b)[..|a + b| - 1] == a + b[..|b| - 1];
    }
  }

  lemma StepsOne(c: Config, st: State, a: Action)
    ensures Steps(c, st, [a]) == Step(c, st, a)
  {
    assert [a][..0] == [];
  }

  /** One `poll`: rebalance callbacks run inside it; a broker error yields no message. */
  datatype PollEvent = Nothing | Broken | Message(tp: TP) | Assigned(tp: TP) | Revoked(tp: TP)

  function PollAction(event: PollEvent): seq<Action> {
    match event
    case Nothing => []
    case Broken => []
    case Message(tp) => [Fetch(tp)]
    case Assigned(tp) => [Assign(tp)]
    case Revoked(tp) => [Revoke(tp)]
  }

  function BeatActions(beats: seq<PollEvent>): seq<Action> {
    if beats == [] then [] else BeatActions(beats[..|beats| - 1]) + PollAction(beats[|beats| - 1])
  }

  lemma BeatsExtend(c: Config, st: State, beats: seq<PollEvent>, k: nat)
    requires k < |beats|
    ensures Steps(c, st, BeatActions(beats[..k + 1])) == Steps(c, Steps(c, st, BeatActions(beats[..k])), PollAction(beats[k]))
  {
    assert beats[..k + 1][..k] == beats[..k];
    StepsConcat(c, st, BeatActions(beats[..k]), PollAction(beats[k]));
  }

  lemma FlushSettles(c: Config, st: State, count: nat)
    requires st.worker.current.Some? && st.worker.current.value.phase.Routed?
    ensures var flushed, now := Flushed(st, count), st.worker.current.value;
            Step(c, st, Flush(count)) == flushed.(worker := flushed.worker.(current := Some(now.(phase := Settled(now.phase.dead)))))
  {
  }

  datatype Outcome = Success | Failing(failure: Failure)

  /** One pass of the loop: the poll it starts with, the polls while the handler runs, how the handler
      ends, how much each flush delivers, the event a dead letter parses to (None: it does not parse),
      and whether the commit is accepted. */
  datatype Turn = Turn(poll: PollEvent, beats: seq<PollEvent>, outcome: Outcome,
                       flushed: nat, event: Option<Record>, announced: nat, accepted: bool)

  /** Announcing a dead letter: skipped by a worker that itself consumes pipeline.failed, or when the
      payload does not parse. */
  function Announcement(c: Config, t: Turn): seq<Action> {
    if PIPELINE_FAILED in c.subscribed || t.event.None? then [] else [Emit(t.event.value, t.announced)]
  }

  function OutcomeActions(c: Config, t: Turn): seq<Action> {
    match t.outcome
    case Success => [Succeed]
    case Failing(failure) => [Fail(failure), Flush(t.flushed)] + Announcement(c, t)
  }

  function ProcessActions(c: Config, t: Turn): seq<Action> {
    [Start] + BeatActions(t.beats) + OutcomeActions(c, t) + [Commit(t.accepted)]
  }

  function WithHead(st: State, raw: Loc): State {
    st.(worker := st.worker.(pending := [raw] + st.worker.pending))
  }

  function WithTail(st: State, raw: Option<Loc>): State {
    match raw
    case None => st
    case Some(loc) => st.(worker := st.worker.(pending := st.worker.pending + [loc]))
  }

  /** One pass: a queued message first, else whatever the poll yields. */
  function Turned(c: Config, st: State, t: Turn): State {
    var polled := if st.worker.pending != [] then st else Steps(c, st, PollAction(t.poll));
    if polled.worker.pending == [] then polled else Steps(c, polled, ProcessActions(c, t))
  }

  function Looped(c: Config, st: State, turns: seq<Turn>): State
    decreases |turns|
  {
    if turns == [] || InPhase(st.worker, Doomed) then st else Looped(c, Turned(c, st, turns[0]), turns[1..])
  }

  lemma {:induction false} StepsKeep(c: Config, st: State, actions: seq<Action>)
    requires StateOk(st, false)
    ensures StateOk(Steps(c, st, actions), false)
  {
    if actions != [] {
      StepsKeep(c, st, actions[..|actions| - 1]);
      StepKeeps(c, Steps(c, st, actions[..|actions| - 1]), actions[|actions| - 1], false);
    }
  }

  lemma {:induction false} LoopedKeeps(c: Config, st: State, turns: seq<Turn>)
    requires StateOk(st, false)
    ensures StateOk(Looped(c, st, turns), false)
    decreases |turns|
  {
    if turns != [] && !InPhase(st.worker, Doomed) {
      StepsKeep(c, st, PollAction(turns[0].poll));
      var polled := if st.worker.pending != [] then st else Steps(c, st, PollAction(turns[0].poll));
      StepsKeep(c, polled, ProcessActions(c, turns[0]));
      LoopedKeeps(c, Turned(c, st, turns[0]), turns[1..]);
    }
  }

  class Broker {
    var log: map<TP, seq<Record>>
    var committed: map<TP, nat>
    var delivered: seq<Outgoing>
    ghost var handled: set<Loc>
    ghost var issued: set<Loc>
    ghost var lost: seq<Outgoing>

    constructor (log: map<TP, seq<Record>>)
      ensures View() == Shared(log, map[], {}, {}, [], [])
    {
      this.log, committed, delivered := log, map[], [];
      handled, issued, lost := {}, {}, [];
    }

    ghost function View(): Shared
      reads this
    {
      Shared(log, committed, handled, issued, delivered, lost)
    }
  }

  /** `position` and `paused` are the Kafka consumer's, `outbox` the producer's queue. */
  class StageWorker {
    const config: Config
    const broker: Broker
    var position: map<TP, nat>
    var paused: set<TP>
    var pending: seq<Loc>
    var current: Option<InFlight>
    var outbox: seq<Outgoing>
    var revoked: bool

    constructor (config: Config, broker: Broker)
      ensures this.config == config && this.broker == broker
      ensures View() == State(broker.View(), FRESH)
    {
      this.config, this.broker := config, broker;
      position, paused, pending, current, outbox, revoked := map[], {}, [], None, [], false;
    }

    ghost function View(): State
      reads this, broker
    {
      State(broker.View(), Worker(position, paused, pending, current, outbox, revoked))
    }

    ghost predicate Valid()
      reads this, broker
    {
      forall l :: l in pending ==> InLog(broker.View(), l)
    }

    method Poll(event: PollEvent) returns (raw: Option<Loc>)
      requires !InPhase(View().worker, Doomed)
      modifies this`position, this`paused, this`revoked
      ensures WithTail(View(), raw) == Steps(config, old(View()), PollAction(event))
      ensures raw.Some? ==> event.Message? && raw.value.tp == event.tp && InLog(broker.View(), raw.value)
    {
      raw := None;
      match event
      case Nothing =>
      case Broken =>
      case Message(tp) =>
        StepsOne(config, View(), Fetch(tp));
        if tp in position && tp !in paused && tp in broker.log && position[tp] < |broker.log[tp]| {
          raw := Some(Loc(tp, position[tp]));
          position := position[tp := position[tp] + 1];
        }
      case Assigned(tp) =>
        StepsOne(config, View(), Assign(tp));
        position := position[tp := if tp in broker.committed then broker.committed[tp] else 0];
        paused := paused - {tp};
      case Revoked(tp) =>
        StepsOne(config, View(), Revoke(tp));
        position := position - {tp};
        revoked := true;
    }

    /** A poll whose message, if any, joins the pending queue. */
    method PollOnce(event: PollEvent)
      requires Valid() && !InPhase(View().worker, Doomed)
      modifies this`position, this`paused, this`revoked, this`pending
      ensures Valid() && View() == Steps(config, old(View()), PollAction(event))
    {
      var raw := Poll(event);
      if raw.Some? {
        pending := pending + [raw.value];
      }
    }

    method HeartbeatUntil(beats: seq<PollEvent>)
      requires Valid() && !InPhase(View().worker, Doomed)
      modifies this`position, this`paused, this`revoked, this`pending
      ensures Valid() && View() == Steps(config, old(View()), BeatActions(beats))
    {
      for i := 0 to |beats|
        invariant Valid() && current == old(current)
        invariant View() == Steps(config, old(View()), BeatActions(beats[..i]))
      {
        BeatsExtend(config, old(View()), beats, i);
        PollOnce(beats[i]);
      }
      assert beats[..|beats|] == beats;
    }

    /** wait_for_assignment: polls until a partition is assigned, keeping whatever is delivered meanwhile. False
        stands for the TimeoutError. */
    method WaitForAssignment(beats: seq<PollEvent>) returns (ready: bool, polls: nat)
      requires Valid() && !InPhase(View().worker, Doomed)
      modifies this`position, this`paused, this`revoked, this`pending
      ensures Valid() && polls <= |beats| && View() == Steps(config, old(View()), BeatActions(beats[..polls]))
      ensures ready <==> polls < |beats|
      ensures ready ==> position != map[]
    {
      polls := 0;
      while polls < |beats|
        invariant polls <= |beats| && Valid() && current == old(current)
        invariant View() == Steps(config, old(View()), BeatActions(beats[..polls]))
      {
        if position != map[] {
          return true, polls;
        }
        BeatsExtend(config, old(View()), beats, polls);
        PollOnce(beats[polls]);
        polls := polls + 1;
      }
      ready := false;
    }

    method NextMessage(event: PollEvent) returns (raw: Option<Loc>)
      requires Valid() && current.None?
      modifies this`position, this`paused, this`revoked, this`pending
      ensures Valid() && (raw.Some? ==> InLog(broker.View(), raw.value))
      ensures var polled := if old(pending) != [] then old(View()) else Steps(config, old(View()), PollAction(event));
              if raw.None? then polled.worker.pending == [] && View() == polled else WithHead(View(), raw.value) == polled
    {
      if pending != [] {
        raw := Some(pending[0]);
        pending := pending[1..];
      } else {
        raw := Poll(event);
      }
    }

    /** The first half of routing: decide, and publish the copy. True when there is no route: the error is
        raised and the process ends before any commit. */
    method PublishCopy(raw: Loc, failure: Failure) returns (crashed: bool)
      requires InPhase(View().worker, Handling) && current.value.loc == raw && InLog(broker.View(), raw)
      requires paused !! current.value.captured
      modifies this`outbox, this`current, broker`issued
      ensures View() == Step(config, old(View()), Fail(failure))
      ensures current.Some? && current.value.loc == raw
      ensures if crashed then current.value.phase.Doomed? else current.value.phase.Routed?
    {
      assert paused == paused - current.value.captured;
      match RouteFailure(config.registry, config.policy, raw.tp.topic, broker.log[raw.tp][raw.offset], failure)
      case Crash =>
        crashed := true;
        current := Some(current.value.(phase := Doomed));
      case Copy(destination, record) =>
        crashed := false;
        outbox := outbox + [Outgoing(Some(raw), None, destination, record)];
        broker.issued := broker.issued + {raw};
        current := Some(current.value.(phase := Routed(IsDlq(destination))));
    }

    /** The second half: flush what was published, whatever the flush leaves behind. */
    method FlushCopy(flushed: nat)
      requires current.Some? && current.value.phase.Routed?
      modifies this`outbox, this`current, broker`delivered
      ensures View() == Step(config, old(View()), Flush(flushed))
      ensures current == Some(old(current.value).(phase := Settled(old(current.value.phase.dead))))
    {
      ghost var st := View();
      FlushOutbox(flushed);
      FlushSettles(config, st, flushed);
      current := Some(current.value.(phase := Settled(current.value.phase.dead)));
    }

    /** `_emit_pipeline_failed`, reached only for a dead letter: nothing from a worker that itself consumes
        pipeline.failed, nor for a payload that does not parse. */
    method EmitPipelineFailed(t: Turn)
      requires InPhase(View().worker, Settled(true))
      modifies this`outbox, broker`delivered
      ensures PIPELINE_FAILED in config.subscribed || t.event.None? ==> View() == old(View())
      ensures PIPELINE_FAILED !in config.subscribed && t.event.Some? ==>
                var st := old(View());
                View() == Flushed(st.(worker := st.worker.(outbox := st.worker.outbox + [Announcing(current.value.loc, t.event.value)])), t.announced)
      ensures View() == Steps(config, old(View()), Announcement(config, t))
    {
      if PIPELINE_FAILED in config.subscribed {
        return;
      }
      if t.event.None? {
        return;
      }
      StepsOne(config, View(), Emit(t.event.value, t.announced));
      outbox := outbox + [Announcing(current.value.loc, t.event.value)];
      FlushOutbox(t.announced);
    }

    method RouteFailureOf(raw: Loc, failure: Failure, t: Turn) returns (crashed: bool)
      requires InPhase(View().worker, Handling) && current.value.loc == raw && InLog(broker.View(), raw)
      requires paused !! current.value.captured
      modifies this`outbox, this`current, broker`delivered, broker`issued
      ensures current.Some? && current.value.loc == raw
      ensures if crashed then current.value.phase.Doomed? else current.value.phase.Settled?
      ensures View() == Steps(config, old(View()), [Fail(failure), Flush(t.flushed)] + Announcement(config, t))
      ensures Queued(View()) ==
                match RouteFailure(config.registry, config.policy, raw.tp.topic, RecordAt(old(broker.View()), raw), failure)
                case Crash => Queued(old(View()))
                case Copy(destination, copy) =>
                  Queued(old(View())) + [Outgoing(Some(raw), None, destination, copy)]
                  + if EndsWith(destination, ".dlq") && "pipeline.failed" !in config.subscribed && t.event.Some?
                    then [Outgoing(None, Some(raw), "pipeline.failed", t.event.value)] else []
    {
      FailedTurnQueues(config, View(), failure, t);
      RouteSteps(config, View(), failure, t);
      crashed := PublishCopy(raw, failure);
      if crashed {
        DoomedStays(config, View(), t);
      } else {
        FlushCopy(t.flushed);
        if current.value.phase.dead {
          EmitPipelineFailed(t);
        } else {
          AliveUnannounced(config, View(), t);
        }
      }
    }

    method FlushOutbox(count: nat)
      modifies this`outbox, broker`delivered
      ensures View() == Flushed(old(View()), count)
    {
      broker.delivered := broker.delivered + (if count < |outbox| then outbox[..count] else outbox);
      outbox := if count < |outbox| then outbox[count..] else [];
    }

    /** The commit may fail, for instance after a rebalance; the loop goes on either way. */
    method CommitOffset(raw: Loc, accepted: bool)
      requires current.Some? && current.value.phase.Settled? && current.value.loc == raw
      modifies this`current, broker`committed
      ensures current.None? && broker.committed == (if accepted then old(broker.committed)[raw.tp := raw.offset + 1] else old(broker.committed))
      ensures View() == Step(config, old(View()), Commit(accepted))
    {
      if accepted {
        broker.committed := broker.committed[raw.tp := raw.offset + 1];
      }
      current := None;
    }

    /** Pauses what is assigned, runs the handler with heartbeats, resumes exactly what was paused. */
    method RunHandler(raw: Loc, beats: seq<PollEvent>)
      requires Valid() && current.None?
      modifies this`position, this`paused, this`revoked, this`pending, this`current
      ensures Valid() && InPhase(View().worker, Handling) && current.value.loc == raw
      ensures current.value.captured == old(position).Keys
      ensures var beaten := Steps(config, WithHead(old(View()), raw), [Start] + BeatActions(beats));
              && beaten.worker.current == current
              && View() == beaten.(worker := beaten.worker.(paused := beaten.worker.paused - current.value.captured))
    {
      ghost var begin := WithHead(View(), raw);
      revoked := false;
      var captured := position.Keys;
      paused := paused + captured;
      current := Some(InFlight(raw, captured, Handling));
      StepsOne(config, begin, Start);
      assert begin.worker.pending[1..] == pending;
      assert View() == Steps(config, begin, [Start]);
      HeartbeatUntil(beats);
      StepsConcat(config, begin, [Start], BeatActions(beats));
      BeatsKeepCurrent(config, Steps(config, begin, [Start]), beats);
      paused := paused - captured;
    }

    method Process(raw: Loc, t: Turn) returns (crashed: bool)
      requires Valid() && current.None? && InLog(broker.View(), raw)
      modifies this, broker`delivered, broker`issued, broker`handled, broker`committed
      ensures Valid() && (if crashed then InPhase(View().worker, Doomed) else current.None?)
      ensures View() == Steps(config, WithHead(old(View()), raw), ProcessActions(config, t))
    {
      ghost var begin := WithHead(View(), raw);
      RunHandler(raw, t.beats);
      ghost var beaten := Steps(config, begin, [Start] + BeatActions(t.beats));
      ProcessSplits(config, begin, t);
      if t.outcome.Success? {
        broker.handled := broker.handled + {raw};
        current := Some(current.value.(phase := Settled(false)));
        crashed := false;
        StepsOne(config, beaten, Succeed);
      } else {
        ResumedFails(config, beaten, t);
        crashed := RouteFailureOf(raw, t.outcome.failure, t);
      }
      assert View() == Steps(config, beaten, OutcomeActions(config, t));
      if !crashed {
        CommitOffset(raw, t.accepted);
      }
    }

    /** Passes through the loop until the turns run out, a stop request having been seen, or the worker
        crashes for want of a route. */
    method Run(turns: seq<Turn>) returns (crashed: bool)
      requires Valid() && current.None?
      modifies this, broker`delivered, broker`issued, broker`handled, broker`committed
      ensures View() == Looped(config, old(View()), turns)
      ensures crashed <==> InPhase(View().worker, Doomed)
      ensures old(StateOk(View(), false)) ==> StateOk(View(), false)
    {
      ghost var start := View();
      crashed := false;
      var i := 0;
      while i < |turns| && !crashed
        invariant 0 <= i <= |turns| && Valid()
        invariant if crashed then InPhase(View().worker, Doomed) else current.None?
        invariant Looped(config, start, turns) == Looped(config, View(), turns[i..])
      {
        ghost var before := View();
        assert turns[i..][0] == turns[i] && turns[i..][1..] == turns[i + 1..];
        var raw := NextMessage(turns[i].poll);
        if raw.Some? {
          crashed := Process(raw.value, turns[i]);
        }
        assert View() == Turned(config, before, turns[i]);
        i := i + 1;
      }
      if old(StateOk(View(), false)) {
        LoopedKeeps(config, start, turns);
      }
    }
  }

  // ------------------------------------------------------ lemmas behind the methods

  lemma RouteSteps(c: Config, st: State, failure: Failure, t: Turn)
    ensures Steps(c, st, [Fail(failure), Flush(t.flushed)] + Announcement(c, t))
            == var flushed := Step(c, Step(c, st, Fail(failure)), Flush(t.flushed));
               if Announcement(c, t) == [] then flushed else Step(c, flushed, Emit(t.event.value, t.announced))
  {
    StepsOne(c, st, Fail(failure));
    StepsConcat(c, st, [Fail(failure)], [Flush(t.flushed)]);
    StepsOne(c, Steps(c, st, [Fail(failure)]), Flush(t.flushed));
    assert [Fail(failure)] + [Flush(t.flushed)] == [Fail(failure), Flush(t.flushed)];
    StepsConcat(c, st, [Fail(failure), Flush(t.flushed)], Announcement(c, t));
    if Announcement(c, t) != [] {
      StepsOne(c, Steps(c, st, [Fail(failure), Flush(t.flushed)]), Emit(t.event.value, t.announced));
    }
  }

  lemma DoomedStays(c: Config, st: State, t: Turn)
    requires InPhase(st.worker, Doomed)
    ensures Step(c, st, Flush(t.flushed)) == st
    ensures Announcement(c, t) != [] ==> Step(c, st, Emit(t.event.value, t.announced)) == st
  {
  }

  lemma AliveUnannounced(c: Config, st: State, t: Turn)
    requires InPhase(st.worker, Settled(false)) || Announcement(c, t) == []
    ensures Announcement(c, t) != [] ==> Step(c, st, Emit(t.event.value, t.announced)) == st
  {
  }

  lemma ProcessSplits(c: Config, begin: State, t: Turn)
    ensures var beaten := Steps(c, begin, [Start] + BeatActions(t.beats));
            Steps(c, begin, ProcessActions(c, t)) == Step(c, Steps(c, beaten, OutcomeActions(c, t)), Commit(t.accepted))
  {
    var a := [Start] + BeatActions(t.beats);
    StepsConcat(c, begin, a, OutcomeActions(c, t));
    StepsConcat(c, begin, a + OutcomeActions(c, t), [Commit(t.accepted)]);
    StepsOne(c, Steps(c, begin, a + OutcomeActions(c, t)), Commit(t.accepted));
  }

  lemma PollKeepsCurrent(c: Config, st: State, event: PollEvent)
    ensures Steps(c, st, PollAction(event)).worker.current == st.worker.current
    ensures Steps(c, st, PollAction(event)).shared == st.shared
  {
    match event
    case Nothing =>
    case Broken =>
    case Message(tp) => StepsOne(c, st, Fetch(tp));
    case Assigned(tp) => StepsOne(c, st, Assign(tp));
    case Revoked(tp) => StepsOne(c, st, Revoke(tp));
  }

  lemma {:induction false} BeatsKeepCurrent(c: Config, st: State, beats: seq<PollEvent>)
    ensures Steps(c, st, BeatActions(beats)).worker.current == st.worker.current
    ensures Steps(c, st, BeatActions(beats)).shared == st.shared
  {
    if beats != [] {
      var init, last := beats[..|beats| - 1], beats[|beats| - 1];
      BeatsKeepCurrent(c, st, init);
      StepsConcat(c, st, BeatActions(init), PollAction(last));
      PollKeepsCurrent(c, Steps(c, st, BeatActions(init)), last);
    }
  }

  /** Resuming the captured partitions first changes nothing: routing resumes them as well. */
  lemma ResumedFails(c: Config, st: State, t: Turn)
    requires InPhase(st.worker, Handling) && InLog(st.shared, st.worker.current.value.loc) && t.outcome.Failing?
    ensures var resumed := st.(worker := st.worker.(paused := st.worker.paused - st.worker.current.value.captured));
            Steps(c, resumed, OutcomeActions(c, t)) == Steps(c, st, OutcomeActions(c, t))
  {
    var captured := st.worker.current.value.captured;
    var resumed := st.(worker := st.worker.(paused := st.worker.paused - captured));
    assert resumed.worker.paused - captured == resumed.worker.paused;
    RouteSteps(c, st, t.outcome.failure, t);
    RouteSteps(c, resumed, t.outcome.failure, t);
  }
}
