/** The join: it always ends with the video announced, unless a worker is killed between its claim and the
    write of the master, or the announcement is left in a queue. */
module Joining {
  import opened Text
  import opened Ladder
  import opened Tables
  import opened Storage
  import opened Pipeline
  import opened Safety

  /** The N + 1 facts are in the tables. */
  ghost predicate AllPersisted(j: Job, t: Table) {
    ExpectedOf(t, j.video) == j.ladder && AllRecorded(j, t)
  }

  /** `video.completed` is on the broker; read weakly, it was handed to a producer. */
  predicate Told(j: Job, w: World, strict: bool) {
    DoneMessage(j, InTextOrder(j.ladder)) in (if strict then w.published else w.held)
  }

  predicate SomePackaging(workers: seq<Pc>) {
    exists i :: 0 <= i < |workers| && IsPackaging(workers[i])
  }

  /** A packager that cannot end normally without announcing, once the master is there and all facts are in. */
  predicate WillTell(pc: Pc) {
    IsPackaging(pc) && !pc.ClaimVideo?
  }

  predicate SomeTelling(workers: seq<Pc>) {
    exists i :: 0 <= i < |workers| && WillTell(workers[i])
  }

  predicate SomeHolding(workers: seq<Pc>) {
    exists i :: 0 <= i < |workers| && Holding(workers[i])
  }

  /** A claim without a master is somebody's, or nobody is left to give it back. */
  ghost predicate ClaimExplained(j: Job, m: Machine) {
    V(j.video, PackagingClaimedAt) in m.w.table ==> Master in m.w.store || m.orphaned || SomeHolding(m.workers)
  }

  ghost predicate MasterWillBeTold(j: Job, m: Machine, strict: bool) {
    AllPersisted(j, m.w.table) && Master in m.w.store && !Told(j, m.w, strict) ==> m.w.pending != multiset{} || SomeTelling(m.workers)
  }

  ghost predicate UnclaimedGoesOn(j: Job, m: Machine, strict: bool) {
    AllPersisted(j, m.w.table) && V(j.video, PackagingClaimedAt) !in m.w.table && !Told(j, m.w, strict)
    ==> m.w.pending != multiset{} || SomePackaging(m.workers)
  }

  ghost predicate JoinOk(j: Job, m: Machine, strict: bool) {
    ClaimExplained(j, m) && MasterWillBeTold(j, m, strict) && UnclaimedGoesOn(j, m, strict)
  }

  // ------------------------------------------------------------ what a step can change

  lemma PersistedBefore(j: Job, t: Table, op: Op)
    requires !(op.RecordExpected? || op.RecordPlaylist?) || op.video != j.video
    ensures AllPersisted(j, Apply(t, op)) <==> AllPersisted(j, t)
  {
    OpEffect(t, op, j.video);
    forall r
      ensures HasPlaylist(Apply(t, op), j.video, r) <==> HasPlaylist(t, j.video, r)
    {
      PlaylistEffect(t, op, j.video, r);
    }
  }

  lemma ClaimKept(j: Job, t: Table, op: Op)
    requires !(op.ClaimPackaging? || op.ReleaseClaim?) || op.video != j.video
    ensures V(j.video, PackagingClaimedAt) in Apply(t, op) <==> V(j.video, PackagingClaimedAt) in t
  {
    OthersKeepPackaging(t, op, j.video);
  }

  lemma {:induction false} SendFirstKeeps(j: Job, w: World, k: nat)
    requires k <= |j.ladder| + 1
    ensures SendFirst(j, w, k).table == w.table
    ensures SendFirst(j, w, k).store == w.store && w.held <= SendFirst(j, w, k).held
    ensures w.published <= SendFirst(j, w, k).published && w.pending <= SendFirst(j, w, k).pending
  {
    if k > 0 {
      SendFirstKeeps(j, w, k - 1);
    }
  }

  lemma TranscodeKeeps(j: Job, w: World, pc: Pc)
    requires IsTranscoding(pc)
    ensures var (w', pc') := TranscodeStep(j, w, pc);
            && (!pc.ClaimRow? ==> w'.table == w.table)
            && (Master in w'.store <==> Master in w.store)
            && w.held <= w'.held && w.published <= w'.published && w.pending <= w'.pending && !IsPackaging(pc')
  {
  }

  /** A worker outside the packager: no fact recorded, no claim and no master touched, no message taken away. */
  lemma OutsideStep(j: Job, w: World, pc: Pc)
    requires !IsPackaging(pc)
    ensures var (w', pc') := Step(j, w, pc);
            && (AllPersisted(j, w'.table) <==> AllPersisted(j, w.table))
            && (V(j.video, PackagingClaimedAt) in w'.table <==> V(j.video, PackagingClaimedAt) in w.table)
            && (Master in w'.store <==> Master in w.store)
            && w.held <= w'.held && w.published <= w'.published && w.pending <= w'.pending && !IsPackaging(pc')
  {
    if IsTranscoding(pc) {
      TranscodeKeeps(j, w, pc);
      if pc.ClaimRow? {
        var op := Op.ClaimRendition(j.owner, j.video, pc.rendition, w.now);
        PersistedBefore(j, w.table, op);
        ClaimKept(j, w.table, op);
      }
    } else if pc.Probing? {
      SendFirstKeeps(j, w, |j.ladder| + 1);
    }
  }

  lemma RecordKeepsClaim(j: Job, w: World, fact: Message)
    ensures V(j.video, PackagingClaimedAt) in RecordStep(j, w, fact).0.table <==> V(j.video, PackagingClaimedAt) in w.table
  {
    match fact
    case Planned(expected) => ClaimKept(j, w.table, Op.RecordExpected(j.video, expected));
    case Ready(r, key) => ClaimKept(j, w.table, Op.RecordPlaylist(j.video, r, key));
    case _ =>
  }

  /** The claim appears with a worker that holds it, and is held until the master is there or it goes. */
  lemma ClaimFollowsHolder(j: Job, w: World, pc: Pc)
    requires IsPackaging(pc) && PackageOk(j, w, pc)
    ensures var (w', pc') := PackageStep(j, w, pc); var c := V(j.video, PackagingClaimedAt);
            && (c in w'.table ==> c in w.table || Holding(pc'))
            && (Holding(pc) ==> Holding(pc') || Master in w.store || c !in w'.table)
            && (Master in w.store ==> Master in w'.store)
  {
    if pc.RecordFact? {
      RecordKeepsClaim(j, w, pc.fact);
    }
  }

  lemma PackagingGoesOn(j: Job, w: World, pc: Pc)
    requires IsPackaging(pc)
    ensures var (w', pc') := PackageStep(j, w, pc);
            && (IsPackaging(pc') || pc'.Ended?)
            && (pc'.ClaimVideo? ==> w' == w && Master !in w.store)
            && w.published <= w'.published && w.held <= w'.held && w'.pending >= w.pending
  {
  }

  lemma NormalRead(j: Job, w: World, pc: Pc)
    requires IsPackaging(pc) && PackageOk(j, w, pc) && ValidJob(j) && (pc.ReadExpected? || pc.ReadRows?)
    requires PackageStep(j, w, pc).1 == Ended(true)
    ensures PackageStep(j, w, pc).0 == w && !AllPersisted(j, w.table)
  {
  }

  lemma NormalKinds(j: Job, w: World, pc: Pc)
    requires IsPackaging(pc) && PackageStep(j, w, pc).1 == Ended(true)
    ensures pc.ReadExpected? || pc.ReadRows? || pc.ClaimVideo? || pc.FlushDone?
  {
  }

  lemma Denied(j: Job, w: World, pc: Pc)
    requires pc.ClaimVideo? && PackageStep(j, w, pc).1 == Ended(true)
    ensures !WinsPackaging(w.table, j.video, w.now) && PackageStep(j, w, pc).0 == w
  {
  }

  lemma FlushTells(j: Job, w: World, pc: Pc, strict: bool)
    requires IsPackaging(pc) && PackageOk(j, w, pc) && pc.FlushDone?
    ensures Told(j, PackageStep(j, w, pc).0, strict)
  {
  }

  /** A packager that ends normally, its flush having drained, either found a fact missing, or announced the
      video, or was refused a claim somebody else took less than the stale window ago. */
  lemma NormalEnd(j: Job, w: World, pc: Pc)
    requires ValidJob(j) && WorldOk(j, w) && IsPackaging(pc) && PackageOk(j, w, pc) && PackageStep(j, w, pc).1 == Ended(true)
    ensures var w' := PackageStep(j, w, pc).0;
            || !AllPersisted(j, w'.table)
            || (pc.FlushDone? && Told(j, w', true) && Told(j, w', false))
            || (pc.ClaimVideo? && w' == w && !WinsPackaging(w.table, j.video, w.now) && V(j.video, PackagingClaimedAt) in w.table)
  {
    NormalKinds(j, w, pc);
    if pc.ClaimVideo? {
      Denied(j, w, pc);
    } else if pc.FlushDone? {
      FlushTells(j, w, pc, true);
      FlushTells(j, w, pc, false);
    } else {
      NormalRead(j, w, pc);
    }
  }

  // ------------------------------------------------------------------------ the runs

  lemma OthersRemain(workers: seq<Pc>, i: nat, pc: Pc)
    requires i < |workers|
    ensures SomePackaging(workers) && !IsPackaging(workers[i]) ==> SomePackaging(workers[i := pc])
    ensures SomeTelling(workers) && !WillTell(workers[i]) ==> SomeTelling(workers[i := pc])
    ensures SomeHolding(workers) && !Holding(workers[i]) ==> SomeHolding(workers[i := pc])
    ensures IsPackaging(pc) ==> SomePackaging(workers[i := pc])
    ensures WillTell(pc) ==> SomeTelling(workers[i := pc])
    ensures Holding(pc) ==> SomeHolding(workers[i := pc])
  {
    var after := workers[i := pc];
    assert after[i] == pc;
    if k :| 0 <= k < |workers| && IsPackaging(workers[k]) && k != i { assert after[k] == workers[k]; }
    if k :| 0 <= k < |workers| && WillTell(workers[k]) && k != i { assert after[k] == workers[k]; }
    if k :| 0 <= k < |workers| && Holding(workers[k]) && k != i { assert after[k] == workers[k]; }
  }

  lemma OutsideAdvances(j: Job, m: Machine, i: nat, strict: bool)
    requires JoinOk(j, m, strict) && i < |m.workers| && !IsPackaging(m.workers[i])
    ensures var (w, pc) := Step(j, m.w, m.workers[i]); JoinOk(j, Moved(m, i, w, pc), strict)
  {
    OutsideStep(j, m.w, m.workers[i]);
    OthersRemain(m.workers, i, Step(j, m.w, m.workers[i]).1);
  }

  lemma ClaimStaysExplained(j: Job, m: Machine, i: nat, w: World, pc: Pc)
    requires MachineOk(j, m) && ClaimExplained(j, m) && i < |m.workers| && IsPackaging(m.workers[i])
    requires (w, pc) == PackageStep(j, m.w, m.workers[i])
    ensures ClaimExplained(j, Moved(m, i, w, pc))
  {
    assert PcOk(j, m.w, m.workers[i]);
    ClaimFollowsHolder(j, m.w, m.workers[i]);
    OthersRemain(m.workers, i, pc);
  }

  /** A packager's step by how it ends: it goes on, returns its message, or ends normally. */
  lemma TellingGoesOn(j: Job, m: Machine, i: nat, w: World, pc: Pc, strict: bool)
    requires ValidJob(j) && MachineOk(j, m) && JoinOk(j, m, strict) && i < |m.workers| && IsPackaging(m.workers[i])
    requires (w, pc) == PackageStep(j, m.w, m.workers[i])
    ensures MasterWillBeTold(j, Moved(m, i, w, pc), strict) && UnclaimedGoesOn(j, Moved(m, i, w, pc), strict)
  {
    assert PcOk(j, m.w, m.workers[i]);
    PackagingGoesOn(j, m.w, m.workers[i]);
    OthersRemain(m.workers, i, pc);
    if pc == Ended(true) {
      NormalEnd(j, m.w, m.workers[i]);
    } else if pc == Ended(false) {
      assert m.workers[i].fact in Returned(w, m.workers[i], pc).pending;
    }
  }

  lemma PackagerAdvances(j: Job, m: Machine, i: nat, w: World, pc: Pc, strict: bool)
    requires ValidJob(j) && MachineOk(j, m) && JoinOk(j, m, strict) && i < |m.workers| && IsPackaging(m.workers[i])
    requires (w, pc) == PackageStep(j, m.w, m.workers[i])
    ensures JoinOk(j, Moved(m, i, w, pc), strict)
  {
    ClaimStaysExplained(j, m, i, w, pc);
    TellingGoesOn(j, m, i, w, pc, strict);
  }

  lemma AdvanceKeepsJoin(j: Job, m: Machine, i: nat, w: World, pc: Pc, strict: bool)
    requires ValidJob(j) && MachineOk(j, m) && JoinOk(j, m, strict) && i < |m.workers|
    requires (w, pc) == Step(j, m.w, m.workers[i])
    ensures JoinOk(j, Moved(m, i, w, pc), strict)
  {
    if IsPackaging(m.workers[i]) {
      PackagerAdvances(j, m, i, w, pc, strict);
    } else {
      OutsideAdvances(j, m, i, strict);
    }
  }

  lemma StopKeepsJoin(j: Job, m: Machine, i: nat, pc: Pc, orphaned: bool, strict: bool)
    requires JoinOk(j, m, strict) && i < |m.workers| && !m.workers[i].Ended?
    requires pc == Raised(m.workers[i]) || pc == Ended(false)
    requires orphaned <==> m.orphaned || (Holding(m.workers[i]) && pc == Ended(false) && Master !in m.w.store)
    ensures JoinOk(j, Moved(m, i, m.w, pc).(orphaned := orphaned), strict)
  {
    OthersRemain(m.workers, i, pc);
    if IsPackaging(m.workers[i]) && pc == Ended(false) {
      assert m.workers[i].fact in Returned(m.w, m.workers[i], pc).pending;
    }
  }

  /** A flush that times out: read weakly the video has been told of, read strictly it does not happen. */
  lemma ShortKeepsJoin(j: Job, m: Machine, i: nat)
    requires MachineOk(j, m) && JoinOk(j, m, false) && i < |m.workers| && AtFlush(j, m.workers[i])
    ensures JoinOk(j, Moved(m, i, m.w, Ended(true)), false)
  {
    assert PcOk(j, m.w, m.workers[i]);
    OthersRemain(m.workers, i, Ended(true));
  }

  lemma StartKeepsJoin(j: Job, m: Machine, pc: Pc, w: World, strict: bool)
    requires JoinOk(j, m, strict) && w == m.w.(pending := w.pending)
    requires w.pending == m.w.pending || WillTell(pc)
    ensures JoinOk(j, m.(workers := m.workers + [pc], w := w), strict)
  {
    var workers := m.workers + [pc];
    assert workers[|m.workers|] == pc;
    if k :| 0 <= k < |m.workers| && IsPackaging(m.workers[k]) { assert workers[k] == m.workers[k]; }
    if k :| 0 <= k < |m.workers| && WillTell(m.workers[k]) { assert workers[k] == m.workers[k]; }
    if k :| 0 <= k < |m.workers| && Holding(m.workers[k]) { assert workers[k] == m.workers[k]; }
  }

  lemma EnvironmentKeepsJoin(j: Job, m: Machine, a: Action, strict: bool)
    requires JoinOk(j, m, strict) && (a.Deliver? || a.Elsewhere? || a.Tick?)
    ensures JoinOk(j, Acted(j, m, a), strict)
  {
    if a.Elsewhere? && Foreign(j, a.op) {
      PersistedBefore(j, m.w.table, a.op);
      ClaimKept(j, m.w.table, a.op);
    }
  }

  lemma StartsKeepJoin(j: Job, m: Machine, a: Action, strict: bool)
    requires JoinOk(j, m, strict) && (a.StartProbe? || a.StartTranscode? || a.StartPackage?)
    ensures JoinOk(j, Acted(j, m, a), strict)
  {
    match a
    case StartProbe => StartKeepsJoin(j, m, Probing(0), m.w, strict);
    case StartTranscode(r) => StartKeepsJoin(j, m, HeadMp4(r), m.w, strict);
    case StartPackage(fact, again) =>
      StartKeepsJoin(j, m, RecordFact(fact), if again then m.w else m.w.(pending := m.w.pending - multiset{fact}), strict);
  }

  lemma ActKeepsJoin(j: Job, m: Machine, a: Action, strict: bool)
    requires ValidJob(j) && MachineOk(j, m) && JoinOk(j, m, strict) && (strict ==> !a.FlushShort?)
    ensures JoinOk(j, Acted(j, m, a), strict)
  {
    match a
    case Advance(i) =>
      if i < |m.workers| {
        AdvanceKeepsJoin(j, m, i, Step(j, m.w, m.workers[i]).0, Step(j, m.w, m.workers[i]).1, strict);
      }
    case Raise(i) =>
      if i < |m.workers| && !m.workers[i].Ended? {
        StopKeepsJoin(j, m, i, Raised(m.workers[i]), m.orphaned || (m.workers[i].ReleaseVideo? && Master !in m.w.store), strict);
      }
    case Kill(i) =>
      if i < |m.workers| && !m.workers[i].Ended? {
        StopKeepsJoin(j, m, i, Ended(false), m.orphaned || (Holding(m.workers[i]) && Master !in m.w.store), strict);
      }
    case FlushShort(i) =>
      if i < |m.workers| && AtFlush(j, m.workers[i]) {
        ShortKeepsJoin(j, m, i);
      }
    case Deliver(_) => EnvironmentKeepsJoin(j, m, a, strict);
    case Elsewhere(_) => EnvironmentKeepsJoin(j, m, a, strict);
    case Tick(_) => EnvironmentKeepsJoin(j, m, a, strict);
    case _ => StartsKeepJoin(j, m, a, strict);
  }

  ghost predicate FlushesDrain(actions: seq<Action>) {
    forall k :: 0 <= k < |actions| ==> !actions[k].FlushShort?
  }

  lemma {:induction false} RunKeepsJoin(j: Job, t: Table, now: int, actions: seq<Action>, strict: bool)
    requires ValidJob(j) && Fresh(j, t) && (strict ==> FlushesDrain(actions))
    ensures JoinOk(j, Run(j, Begin(t, now), actions), strict)
  {
    if actions != [] {
      var init := actions[..|actions| - 1];
      RunKeepsJoin(j, t, now, init, strict);
      RunOk(j, t, now, init);
      ActKeepsJoin(j, Run(j, Begin(t, now), init), actions[|actions| - 1], strict);
    }
  }

  /** All facts are in, no packager is at work, and none of its messages is undelivered, in a retry tier or
      in the DLQ. */
  ghost predicate Quiet(j: Job, m: Machine) {
    AllPersisted(j, m.w.table) && m.w.pending == multiset{} && !SomePackaging(m.workers)
  }

  ghost predicate Stranded(j: Job, m: Machine) {
    Quiet(j, m) && !Told(j, m.w, true)
  }

  lemma QuietIsDecided(j: Job, m: Machine, strict: bool)
    requires MachineOk(j, m) && JoinOk(j, m, strict) && Quiet(j, m)
    ensures Told(j, m.w, strict) <==> Master in m.w.store
    ensures Master !in m.w.store ==> V(j.video, PackagingClaimedAt) in m.w.table && m.orphaned
  {
    if Told(j, m.w, strict) {
      assert MessageOk(j, m.w.store, DoneMessage(j, InTextOrder(j.ladder)));
    }
    assert forall i :: 0 <= i < |m.workers| ==> !IsPackaging(m.workers[i]);
  }

  /** No stranded join. In whatever order the facts are persisted, and however many packagers run, raise, are
      killed or delivered again, provided no flush times out: once the join is quiet, `video.completed` is on
      the broker exactly when the master was written. It was not only if a worker was killed, or failed to
      release, between its claim and the write, and then the claim is still in the row. */
  lemma NeverStranded(j: Job, t: Table, now: int, actions: seq<Action>)
    requires ValidJob(j) && Fresh(j, t) && FlushesDrain(actions)
    ensures var m := Run(j, Begin(t, now), actions);
            Quiet(j, m) ==>
              && (Told(j, m.w, true) <==> Master in m.w.store)
              && (Master !in m.w.store ==> V(j.video, PackagingClaimedAt) in m.w.table && m.orphaned)
  {
    RunKeepsJoin(j, t, now, actions, true);
    RunOk(j, t, now, actions);
    if Quiet(j, Run(j, Begin(t, now), actions)) {
      QuietIsDecided(j, Run(j, Begin(t, now), actions), true);
    }
  }

  /** With flushes free to time out, whose count the handlers discard: the same, but `video.completed` may
      have got no further than a producer's queue. */
  lemma AtLeastQueued(j: Job, t: Table, now: int, actions: seq<Action>)
    requires ValidJob(j) && Fresh(j, t)
    ensures var m := Run(j, Begin(t, now), actions);
            Quiet(j, m) ==>
              && (Told(j, m.w, false) <==> Master in m.w.store)
              && (Master !in m.w.store ==> V(j.video, PackagingClaimedAt) in m.w.table && m.orphaned)
  {
    RunKeepsJoin(j, t, now, actions, false);
    RunOk(j, t, now, actions);
    if Quiet(j, Run(j, Begin(t, now), actions)) {
      QuietIsDecided(j, Run(j, Begin(t, now), actions), false);
    }
  }
}
