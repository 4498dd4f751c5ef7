/** What one pass of the consumer loop does, from the message it takes to the offset it commits, and what a
    poll may bring (backend/libs/pipeline/consumer.py, StageWorker.run and _process). */
module Turns {
  import opened Text
  import opened Retry
  import opened Messages
  import opened Consumer

  // ------------------------------------------------------------------------- polling

  /** A partition is read from the group's committed offset on, one record at a time, into the pending queue. */
  lemma AssignedStartsAtCommitted(c: Config, st: State, tp: TP)
    requires !InPhase(st.worker, Doomed) && InLog(st.shared, Loc(tp, CommittedOf(st.shared, tp)))
    ensures var st' := Step(c, Step(c, st, Assign(tp)), Fetch(tp)); var at := CommittedOf(st.shared, tp);
            && st'.worker.pending == st.worker.pending + [Loc(tp, at)]
            && tp in st'.worker.position && st'.worker.position[tp] == at + 1
            && st'.shared == st.shared
  {
  }

  lemma CommittedOfUnset(s: Shared, tp: TP)
    ensures CommittedOf(s, tp) == if tp in s.committed then s.committed[tp] else 0
  {
  }

  /** A fetch brings the record at the fetch position of an assigned partition that is not paused, and moves
      past it; otherwise it brings nothing. */
  lemma FetchBringsNext(c: Config, st: State, tp: TP)
    requires !InPhase(st.worker, Doomed)
    ensures var w, w' := st.worker, Step(c, st, Fetch(tp)).worker;
            if tp in w.position && tp !in w.paused && tp in st.shared.log && w.position[tp] < |st.shared.log[tp]|
            then w' == w.(pending := w.pending + [Loc(tp, w.position[tp])], position := w.position[tp := w.position[tp] + 1])
            else w' == w
  {
  }

  /** A revoked partition is no longer read; what it queued stays queued. */
  lemma RevokedKeepsPending(c: Config, st: State, tp: TP, other: TP)
    requires !InPhase(st.worker, Doomed)
    ensures var w' := Step(c, st, Revoke(tp)).worker;
            && w'.pending == st.worker.pending && tp !in w'.position && w'.current == st.worker.current
            && (other != tp ==> (other in w'.position <==> other in st.worker.position)
                                && (other in w'.position ==> w'.position[other] == st.worker.position[other]))
  {
  }

  /** While the handler runs nothing is read from what was assigned when it began; only a partition assigned
      since can bring a record. */
  lemma PausedWhileHandling(c: Config, st: State, tp: TP)
    requires Idle(st.worker) && st.worker.pending != [] && tp in st.worker.position
    ensures var busy := Step(c, st, Start);
            && InPhase(busy.worker, Handling) && busy.worker.current.value.loc == st.worker.pending[0]
            && busy.worker.pending == st.worker.pending[1..]
            && Step(c, busy, Fetch(tp)) == busy
            && Step(c, Step(c, busy, Assign(tp)), Fetch(tp)).worker.paused == busy.worker.paused - {tp}
  {
  }

  /** When it ends, exactly what it paused is resumed. */
  lemma ResumedAfterHandling(c: Config, st: State, a: Action)
    requires InPhase(st.worker, Handling) && InLog(st.shared, st.worker.current.value.loc) && (a.Succeed? || a.Fail?)
    ensures Step(c, st, a).worker.paused == st.worker.paused - st.worker.current.value.captured
  {
  }

  // --------------------------------------------------------------------------- turns

  /** Polling while a handler runs only adds to the pending queue. */
  lemma {:induction false} BeatsOnlyQueue(c: Config, st: State, beats: seq<PollEvent>)
    ensures var st' := Steps(c, st, BeatActions(beats));
            st'.shared == st.shared && st'.worker.outbox == st.worker.outbox && st'.worker.current == st.worker.current
            && st.worker.pending <= st'.worker.pending
  {
    if beats != [] {
      var init, last := beats[..|beats| - 1], beats[|beats| - 1];
      BeatsOnlyQueue(c, st, init);
      StepsConcat(c, st, BeatActions(init), PollAction(last));
      PollOnlyQueues(c, Steps(c, st, BeatActions(init)), last);
    }
  }

  lemma PollOnlyQueues(c: Config, st: State, event: PollEvent)
    ensures var st' := Steps(c, st, PollAction(event));
            st'.shared == st.shared && st'.worker.outbox == st.worker.outbox && st'.worker.current == st.worker.current
            && st.worker.pending <= st'.worker.pending
  {
    match event
    case Nothing =>
    case Broken =>
    case Message(tp) => StepsOne(c, st, Fetch(tp));
    case Assigned(tp) => StepsOne(c, st, Assign(tp));
    case Revoked(tp) => StepsOne(c, st, Revoke(tp));
  }

  /** A pass with something pending takes the first of it. */
  ghost predicate Ready(st: State, l: Loc, rest: seq<Loc>) {
    Idle(st.worker) && st.worker.pending == [l] + rest && InLog(st.shared, l)
  }

  ghost predicate Handled(st: State, before: State, l: Loc, rest: seq<Loc>) {
    && InPhase(st.worker, Handling) && st.worker.current.value.loc == l
    && st.shared == before.shared && st.worker.outbox == before.worker.outbox && rest <= st.worker.pending
  }

  lemma BeatenIsHandling(c: Config, st: State, l: Loc, rest: seq<Loc>, beats: seq<PollEvent>)
    requires Ready(st, l, rest)
    ensures Handled(Steps(c, st, [Start] + BeatActions(beats)), st, l, rest)
  {
    StepsConcat(c, st, [Start], BeatActions(beats));
    StepsOne(c, st, Start);
    BeatsOnlyQueue(c, Step(c, st, Start), beats);
    assert st.worker.pending[1..] == rest;
  }

  /** A pass whose handler succeeds: the first pending message is handled; its offset is committed if the
      broker accepts, and no other; nothing is produced; and the rest of the queue is still there in order. */
  lemma SuccessfulTurn(c: Config, st: State, l: Loc, rest: seq<Loc>, t: Turn)
    requires Ready(st, l, rest) && t.outcome.Success?
    ensures var end := Turned(c, st, t);
            && end.shared == st.shared.(handled := st.shared.handled + {l},
                                        committed := if t.accepted then st.shared.committed[l.tp := l.offset + 1] else st.shared.committed)
            && end.worker.outbox == st.worker.outbox && end.worker.current.None? && rest <= end.worker.pending
  {
    var beaten := Steps(c, st, [Start] + BeatActions(t.beats));
    BeatenIsHandling(c, st, l, rest, t.beats);
    ProcessSplits(c, st, t);
    StepsOne(c, beaten, Succeed);
  }

  ghost predicate SameBooks(st: State, st': State) {
    && st'.shared.handled == st.shared.handled && st'.shared.committed == st.shared.committed && st'.shared.log == st.shared.log
    && st'.worker.pending == st.worker.pending
  }

  lemma FailFlushKeeps(c: Config, st: State, failure: Failure, count: nat)
    requires InPhase(st.worker, Handling) && InLog(st.shared, st.worker.current.value.loc)
    ensures SameBooks(st, Step(c, Step(c, st, Fail(failure)), Flush(count)))
  {
  }

  lemma EmitKeeps(c: Config, st: State, event: Record, count: nat)
    ensures SameBooks(st, Step(c, st, Emit(event, count))) && Step(c, st, Emit(event, count)).worker.current == st.worker.current
  {
  }

  /** What routing leaves alone, and where it ends. */
  lemma RoutingKeeps(c: Config, st: State, failure: Failure, t: Turn)
    requires InPhase(st.worker, Handling) && InLog(st.shared, st.worker.current.value.loc)
    ensures var loc, st' := st.worker.current.value.loc, Steps(c, st, [Fail(failure), Flush(t.flushed)] + Announcement(c, t));
            && SameBooks(st, st')
            && if RouteFailure(c.registry, c.policy, loc.tp.topic, RecordAt(st.shared, loc), failure).Crash?
               then InPhase(st'.worker, Doomed)
               else st'.worker.current.Some? && st'.worker.current.value.phase.Settled? && st'.worker.current.value.loc == loc
  {
    var flushed := Step(c, Step(c, st, Fail(failure)), Flush(t.flushed));
    RouteSteps(c, st, failure, t);
    FailFlushKeeps(c, st, failure, t.flushed);
    FailQueued(c, st, failure, t.flushed);
    if t.event.Some? {
      EmitKeeps(c, flushed, t.event.value, t.announced);
    }
  }

  /** A pass whose handler fails. Without a route the worker crashes with nothing produced and nothing
      committed. With one, the copy is produced, then perhaps the announcement, and only then is the offset
      committed. Either way the message does not count as handled. */
  lemma FailedTurn(c: Config, st: State, l: Loc, rest: seq<Loc>, t: Turn)
    requires Ready(st, l, rest) && t.outcome.Failing?
    ensures var end := Turned(c, st, t);
            && end.shared.handled == st.shared.handled && rest <= end.worker.pending
            && match RouteFailure(c.registry, c.policy, l.tp.topic, RecordAt(st.shared, l), t.outcome.failure)
               case Crash => Queued(end) == Queued(st) && end.shared.committed == st.shared.committed && InPhase(end.worker, Doomed)
               case Copy(destination, copy) =>
                 && Queued(end) == Queued(st) + [Outgoing(Some(l), None, destination, copy)]
                                   + (if EndsWith(destination, ".dlq") && "pipeline.failed" !in c.subscribed && t.event.Some?
                                      then [Outgoing(None, Some(l), "pipeline.failed", t.event.value)] else [])
                 && end.shared.committed == (if t.accepted then st.shared.committed[l.tp := l.offset + 1] else st.shared.committed)
                 && end.worker.current.None?
  {
    var beaten := Steps(c, st, [Start] + BeatActions(t.beats));
    BeatenIsHandling(c, st, l, rest, t.beats);
    TurnedSplits(c, st, t);
    FailedEnds(c, beaten, t, l);
  }

  ghost predicate EndsFailed(c: Config, st: State, end: State, t: Turn, l: Loc)
    requires InLog(st.shared, l) && t.outcome.Failing?
  {
    && end.shared.handled == st.shared.handled && end.worker.pending == st.worker.pending
    && match RouteFailure(c.registry, c.policy, l.tp.topic, RecordAt(st.shared, l), t.outcome.failure)
       case Crash => Queued(end) == Queued(st) && end.shared.committed == st.shared.committed && InPhase(end.worker, Doomed)
       case Copy(destination, copy) =>
         && Queued(end) == Queued(st) + [Outgoing(Some(l), None, destination, copy)]
                           + (if EndsWith(destination, ".dlq") && "pipeline.failed" !in c.subscribed && t.event.Some?
                              then [Outgoing(None, Some(l), "pipeline.failed", t.event.value)] else [])
         && end.shared.committed == (if t.accepted then st.shared.committed[l.tp := l.offset + 1] else st.shared.committed)
         && end.worker.current.None?
  }

  lemma FailedEnds(c: Config, st: State, t: Turn, l: Loc)
    requires InPhase(st.worker, Handling) && st.worker.current.value.loc == l && InLog(st.shared, l) && t.outcome.Failing?
    ensures EndsFailed(c, st, Step(c, Steps(c, st, OutcomeActions(c, t)), Commit(t.accepted)), t, l)
  {
    var routed := Steps(c, st, OutcomeActions(c, t));
    FailedFromHandling(c, st, routed, t);
    CommitEnds(c, routed, t.accepted);
  }

  lemma TurnedSplits(c: Config, st: State, t: Turn)
    requires st.worker.pending != []
    ensures Turned(c, st, t) == Step(c, Steps(c, Steps(c, st, [Start] + BeatActions(t.beats)), OutcomeActions(c, t)), Commit(t.accepted))
  {
    ProcessSplits(c, st, t);
  }

  lemma FailedFromHandling(c: Config, st: State, routed: State, t: Turn)
    requires InPhase(st.worker, Handling) && InLog(st.shared, st.worker.current.value.loc) && t.outcome.Failing?
    requires routed == Steps(c, st, OutcomeActions(c, t))
    ensures SameBooks(st, routed)
    ensures var l := st.worker.current.value.loc;
            match RouteFailure(c.registry, c.policy, l.tp.topic, RecordAt(st.shared, l), t.outcome.failure)
            case Crash => Queued(routed) == Queued(st) && InPhase(routed.worker, Doomed)
            case Copy(destination, copy) =>
              && Queued(routed) == Queued(st) + [Outgoing(Some(l), None, destination, copy)]
                                   + (if EndsWith(destination, ".dlq") && "pipeline.failed" !in c.subscribed && t.event.Some?
                                      then [Outgoing(None, Some(l), "pipeline.failed", t.event.value)] else [])
              && routed.worker.current.Some? && routed.worker.current.value.phase.Settled? && routed.worker.current.value.loc == l
  {
    RoutingKeeps(c, st, t.outcome.failure, t);
    FailedTurnQueues(c, st, t.outcome.failure, t);
  }

  lemma CommitEnds(c: Config, st: State, accepted: bool)
    requires st.worker.current.Some? && (st.worker.current.value.phase.Settled? || st.worker.current.value.phase.Doomed?)
    ensures var st', loc := Step(c, st, Commit(accepted)), st.worker.current.value.loc;
            && Queued(st') == Queued(st) && st'.shared.handled == st.shared.handled && st'.worker.pending == st.worker.pending
            && (st.worker.current.value.phase.Doomed? ==> st' == st)
            && (st.worker.current.value.phase.Settled? ==>
                  && st'.worker.current.None?
                  && st'.shared.committed == if accepted then st.shared.committed[loc.tp := loc.offset + 1] else st.shared.committed)
  {
  }

  /** A pass with nothing pending and nothing polled changes nothing but what the poll itself did. */
  lemma EmptyTurn(c: Config, st: State, t: Turn)
    requires Idle(st.worker) && st.worker.pending == [] && !t.poll.Message?
    ensures var end := Turned(c, st, t);
            && end.shared == st.shared && end.worker.outbox == st.worker.outbox && end.worker.current.None? && end.worker.pending == []
  {
    match t.poll
    case Nothing =>
    case Broken =>
    case Assigned(tp) => StepsOne(c, st, Assign(tp));
    case Revoked(tp) => StepsOne(c, st, Revoke(tp));
  }
}
