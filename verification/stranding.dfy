/** When the join is stranded: what one hard kill and one flush that times out lead to. */
module Stranding {
  import opened Text
  import opened Ladder
  import opened Tables
  import opened Storage
  import opened Pipeline
  import opened Safety
  import opened Joining

  // ----------------------------------------------------------------------- reaching

  /** Nobody raises, is killed or times out. */
  ghost predicate Faultless(actions: seq<Action>) {
    forall k :: 0 <= k < |actions| ==> !actions[k].Raise? && !actions[k].Kill? && !actions[k].FlushShort?
  }

  ghost predicate Reaches(j: Job, m: Machine, m': Machine) {
    exists actions :: Faultless(actions) && Run(j, m, actions) == m'
  }

  lemma ReachesOn(j: Job, m: Machine, m1: Machine, m2: Machine)
    requires Reaches(j, m, m1) && Reaches(j, m1, m2)
    ensures Reaches(j, m, m2)
  {
    var a :| Faultless(a) && Run(j, m, a) == m1;
    var b :| Faultless(b) && Run(j, m1, b) == m2;
    RunConcat(j, m, a, b);
    assert Faultless(a + b);
  }

  lemma {:induction false} AdvancesFaultless(i: nat, n: nat)
    ensures Faultless(Advances(i, n))
  {
    if n > 0 {
      AdvancesFaultless(i, n - 1);
    }
  }

  /** `n` steps from one place to another, with no exception on the way. */
  ghost predicate Goes(j: Job, w: World, pc: Pc, n: nat, w': World, pc': Pc) {
    Walk(j, w, pc, n) == (w', pc') && forall k :: 0 < k <= n ==> Walk(j, w, pc, k).1 != Ended(false)
  }

  lemma Stays(j: Job, w: World, pc: Pc, n: nat)
    requires n == 0
    ensures Goes(j, w, pc, n, w, pc)
  {
  }

  lemma GoesOn(j: Job, w: World, pc: Pc, n: nat, w1: World, pc1: Pc, w2: World, pc2: Pc)
    requires Goes(j, w, pc, n, w1, pc1) && Step(j, w1, pc1) == (w2, pc2) && pc2 != Ended(false)
    ensures Goes(j, w, pc, n + 1, w2, pc2)
  {
  }

  lemma Chain(j: Job, w: World, pc: Pc, n: nat, w0: World, pc0: Pc, w1: World, pc1: Pc, w2: World, pc2: Pc, w3: World, pc3: Pc)
    requires Goes(j, w, pc, n, w0, pc0) && Step(j, w0, pc0) == (w1, pc1) && Step(j, w1, pc1) == (w2, pc2) && Step(j, w2, pc2) == (w3, pc3)
    requires pc1 != Ended(false) && pc2 != Ended(false) && pc3 != Ended(false)
    ensures Goes(j, w, pc, n + 3, w3, pc3)
  {
    GoesOn(j, w, pc, n, w0, pc0, w1, pc1);
    GoesOn(j, w, pc, n + 1, w1, pc1, w2, pc2);
    GoesOn(j, w, pc, n + 2, w2, pc2, w3, pc3);
  }

  lemma Twice(j: Job, n: nat, w0: World, pc0: Pc, w1: World, pc1: Pc, w2: World, pc2: Pc)
    requires Step(j, w0, pc0) == (w1, pc1) && Step(j, w1, pc1) == (w2, pc2) && n == 2 && pc1 != Ended(false) && pc2 != Ended(false)
    ensures Goes(j, w0, pc0, n, w2, pc2)
  {
    Stays(j, w0, pc0, n - 2);
    GoesOn(j, w0, pc0, n - 2, w0, pc0, w1, pc1);
    GoesOn(j, w0, pc0, n - 1, w1, pc1, w2, pc2);
  }

  lemma Starts(j: Job, n: nat, w0: World, pc0: Pc, w1: World, pc1: Pc, w2: World, pc2: Pc, w3: World, pc3: Pc)
    requires Step(j, w0, pc0) == (w1, pc1) && Step(j, w1, pc1) == (w2, pc2) && Step(j, w2, pc2) == (w3, pc3)
    requires n == 3 && pc1 != Ended(false) && pc2 != Ended(false) && pc3 != Ended(false)
    ensures Goes(j, w0, pc0, n, w3, pc3)
  {
    Twice(j, n - 1, w0, pc0, w1, pc1, w2, pc2);
    GoesOn(j, w0, pc0, n - 1, w2, pc2, w3, pc3);
  }

  lemma StartsFive(j: Job, n: nat, w0: World, pc0: Pc, w1: World, pc1: Pc, pc2: Pc, pc3: Pc, pc4: Pc, w5: World, pc5: Pc)
    requires Step(j, w0, pc0) == (w1, pc1) && Step(j, w1, pc1) == (w1, pc2) && Step(j, w1, pc2) == (w1, pc3)
    requires Step(j, w1, pc3) == (w1, pc4) && Step(j, w1, pc4) == (w5, pc5)
    requires n == 5 && Ended(false) !in {pc1, pc2, pc3, pc4, pc5}
    ensures Goes(j, w0, pc0, n, w5, pc5)
  {
    Starts(j, n - 2, w0, pc0, w1, pc1, w1, pc2, w1, pc3);
    GoesOn(j, w0, pc0, n - 2, w1, pc3, w1, pc4);
    GoesOn(j, w0, pc0, n - 1, w1, pc4, w5, pc5);
  }

  /** A worker is started and walks on its own. */
  lemma StartedReaches(j: Job, m: Machine, start: Action, w: World, pc: Pc, n: nat, w': World, pc': Pc)
    requires Acted(j, m, start) == Machine(w, m.workers + [pc], m.orphaned) && Goes(j, w, pc, n, w', pc')
    requires !start.Raise? && !start.Kill? && !start.FlushShort?
    ensures Reaches(j, m, Machine(w', m.workers + [pc'], m.orphaned))
  {
    var walk := Advances(|m.workers|, n);
    WalkRuns(j, w, m.workers, m.orphaned, pc, n);
    AdvancesFaultless(|m.workers|, n);
    RunOne(j, m, start);
    RunConcat(j, m, [start], walk);
    assert Faultless([start] + walk);
  }

  // ------------------------------------------------------------ a redelivered packager

  function Recorded(j: Job, w: World, fact: Message): World {
    RecordStep(j, w, fact).0
  }

  lemma ClaimCellAfterRecord(j: Job, w: World, fact: Message)
    ensures var w1 := Recorded(j, w, fact);
            Held(w1.table, V(j.video, PackagingClaimedAt)) == Held(w.table, V(j.video, PackagingClaimedAt))
            && HasVideo(w1.table, j.video) == HasVideo(w.table, j.video)
  {
    match fact
    case Planned(expected) => OthersKeepPackaging(w.table, Op.RecordExpected(j.video, expected), j.video);
    case Ready(r, key) => OthersKeepPackaging(w.table, Op.RecordPlaylist(j.video, r, key), j.video);
    case _ =>
  }

  /** Recording a fact again changes neither the facts nor the claim. */
  lemma RecordedAgain(j: Job, w: World, fact: Message)
    requires ValidJob(j) && WorldOk(j, w) && fact in w.held && ForPackager(fact) && AllPersisted(j, w.table)
    ensures var w1 := Recorded(j, w, fact);
            && Step(j, w, RecordFact(fact)) == (w1, ReadExpected(fact)) && w1 == w.(table := w1.table) && AllPersisted(j, w1.table)
            && WinsPackaging(w1.table, j.video, w.now) == WinsPackaging(w.table, j.video, w.now)
  {
    assert MessageOk(j, w.store, fact);
    RecordStepOk(j, w, fact);
    ClaimCellAfterRecord(j, w, fact);
    if fact.Ready? {
      OpEffect(w.table, Op.RecordPlaylist(j.video, fact.rendition, fact.playlist), j.video);
    } else {
      OpEffect(w.table, Op.RecordExpected(j.video, fact.expected), j.video);
    }
  }

  /** What a packager does once all facts are in. */
  lemma JoinSteps(j: Job, w: World, fact: Message)
    requires ValidJob(j) && AllPersisted(j, w.table)
    ensures var names := InTextOrder(j.ladder);
            && Step(j, w, ReadExpected(fact)) == (w, ReadRows(fact, j.ladder))
            && Step(j, w, ReadRows(fact, j.ladder)) == (w, CheckMaster(fact, names))
            && Step(j, w, CheckMaster(fact, names)) == (w, if Master in w.store then TellDone(fact, names, false) else ClaimVideo(fact, names))
  {
  }

  function Claimed(j: Job, w: World): World {
    Write(w, Op.ClaimPackaging(j.video, w.now))
  }

  lemma LastStep(j: Job, w: World, fact: Message, names: seq<Rendition>)
    ensures !WinsPackaging(w.table, j.video, w.now) ==> Step(j, w, ClaimVideo(fact, names)) == (w, Ended(true))
    ensures WinsPackaging(w.table, j.video, w.now) ==> Step(j, w, ClaimVideo(fact, names)) == (Claimed(j, w), UploadMaster(fact, names))
    ensures Step(j, w, TellDone(fact, names, false)) == (Hold(w, DoneMessage(j, names)), FlushDone(fact, names, false))
  {
  }

  /** Where it is after five steps. */
  function FifthPc(j: Job, w: World, fact: Message): Pc {
    if Master in w.store then FlushDone(fact, InTextOrder(j.ladder), false)
    else if WinsPackaging(w.table, j.video, w.now) then UploadMaster(fact, InTextOrder(j.ladder))
    else Ended(true)
  }

  function FifthWorld(j: Job, w1: World): World {
    if Master in w1.store then Hold(w1, DoneMessage(j, InTextOrder(j.ladder)))
    else if WinsPackaging(w1.table, j.video, w1.now) then Claimed(j, w1)
    else w1
  }

  lemma FiveSteps(j: Job, w: World, fact: Message, n: nat)
    requires ValidJob(j) && WorldOk(j, w) && fact in w.held && ForPackager(fact) && AllPersisted(j, w.table) && n == 5
    ensures Goes(j, w, RecordFact(fact), n, FifthWorld(j, Recorded(j, w, fact)), FifthPc(j, w, fact))
  {
    var w1, names := Recorded(j, w, fact), InTextOrder(j.ladder);
    RecordedAgain(j, w, fact);
    JoinSteps(j, w1, fact);
    LastStep(j, w1, fact, names);
    StartsFive(j, n, w, RecordFact(fact), w1, ReadExpected(fact), ReadRows(fact, j.ladder), CheckMaster(fact, names),
               if Master in w1.store then TellDone(fact, names, false) else ClaimVideo(fact, names),
               FifthWorld(j, w1), FifthPc(j, w, fact));
  }

  /** The kill, the time that passes, and the message delivered again. */
  function Comeback(j: Job, m: Machine, i: nat, elapsed: nat): seq<Action>
    requires i < |m.workers| && IsPackaging(m.workers[i])
  {
    [Kill(i), Tick(elapsed), StartPackage(m.workers[i].fact, false)]
  }

  function Later(w: World, elapsed: nat): World {
    w.(now := w.now + elapsed)
  }

  lemma BackAgain(j: Job, m: Machine, i: nat, elapsed: nat)
    requires i < |m.workers| && Holding(m.workers[i]) && m.w.pending == multiset{}
    requires m.workers[i].fact in m.w.published && ForPackager(m.workers[i].fact)
    ensures var m' := Run(j, m, Comeback(j, m, i, elapsed));
            m'.w == Later(m.w, elapsed) && m'.workers == m.workers[i := Ended(false)] + [RecordFact(m.workers[i].fact)]
  {
    var fact := m.workers[i].fact;
    var dead := Run(j, m, [Kill(i), Tick(elapsed)]);
    Dies(j, m, i, elapsed);
    RunConcat(j, m, [Kill(i), Tick(elapsed)], [StartPackage(fact, false)]);
    assert Comeback(j, m, i, elapsed) == [Kill(i), Tick(elapsed)] + [StartPackage(fact, false)];
    PickedUp(j, dead, fact);
  }

  lemma Dies(j: Job, m: Machine, i: nat, elapsed: nat)
    requires i < |m.workers| && Holding(m.workers[i]) && m.w.pending == multiset{}
    ensures var m' := Run(j, m, [Kill(i), Tick(elapsed)]);
            m'.w == Later(m.w, elapsed).(pending := multiset{m.workers[i].fact}) && m'.workers == m.workers[i := Ended(false)]
  {
    RunTwo(j, m, Kill(i), Tick(elapsed));
    assert multiset{} + multiset{m.workers[i].fact} == multiset{m.workers[i].fact};
  }

  lemma PickedUp(j: Job, m: Machine, fact: Message)
    requires fact in m.w.published && ForPackager(fact) && m.w.pending == multiset{fact}
    ensures Run(j, m, [StartPackage(fact, false)]) == Machine(m.w.(pending := multiset{}), m.workers + [RecordFact(fact)], m.orphaned)
  {
    RunOne(j, m, StartPackage(fact, false));
    assert multiset{fact} - multiset{fact} == multiset{};
  }

  lemma LaterOk(j: Job, w: World, elapsed: nat)
    requires WorldOk(j, w)
    ensures WorldOk(j, Later(w, elapsed))
  {
    MessagesStay(j, w, Later(w, elapsed));
  }

  lemma FifthIsStranded(j: Job, w: World, fact: Message, others: seq<Pc>, orphaned: bool)
    requires ValidJob(j) && WorldOk(j, w) && fact in w.held && ForPackager(fact) && AllPersisted(j, w.table)
    requires w.pending == multiset{} && !SomePackaging(others)
    ensures Stranded(j, Machine(FifthWorld(j, Recorded(j, w, fact)), others + [FifthPc(j, w, fact)], orphaned))
            <==> Master !in w.store && !WinsPackaging(w.table, j.video, w.now)
  {
    var m := Machine(FifthWorld(j, Recorded(j, w, fact)), others + [FifthPc(j, w, fact)], orphaned);
    assert m.workers[|others|] == FifthPc(j, w, fact);
    RecordedAgain(j, w, fact);
    if FifthPc(j, w, fact) == Ended(true) {
      assert m.w == Recorded(j, w, fact);
      UntoldWithoutMaster(j, w);
    }
  }

  lemma UntoldWithoutMaster(j: Job, w: World)
    requires WorldOk(j, w) && Master !in w.store
    ensures !Told(j, w, true) && !Told(j, w, false)
  {
    assert forall m :: m in w.held ==> MessageOk(j, w.store, m);
  }

  /** The hard kill. The last packager is killed anywhere between winning the claim and giving it back; some
      time later its message is delivered again. That strands the video if and only if the master was not
      yet written and the dead claim is still live when it is asked for again: the two guards the redelivery
      runs into. */
  lemma HardKillStrands(j: Job, m: Machine, i: nat, elapsed: nat)
    requires ValidJob(j) && MachineOk(j, m) && i < |m.workers| && Holding(m.workers[i])
    requires forall k :: 0 <= k < |m.workers| && k != i ==> !IsPackaging(m.workers[k])
    requires m.w.pending == multiset{} && m.workers[i].fact in m.w.published && AllPersisted(j, m.w.table)
    ensures Stranded(j, Run(j, m, Comeback(j, m, i, elapsed) + Advances(|m.workers|, 5)))
            <==> Master !in m.w.store && !WinsPackaging(m.w.table, j.video, m.w.now + elapsed)
  {
    var fact, others, w := m.workers[i].fact, m.workers[i := Ended(false)], Later(m.w, elapsed);
    assert PcOk(j, m.w, m.workers[i]);
    LaterOk(j, m.w, elapsed);
    BackAgain(j, m, i, elapsed);
    RedeliveryDecides(j, Run(j, m, Comeback(j, m, i, elapsed)), w, others, fact, 5);
    RunConcat(j, m, Comeback(j, m, i, elapsed), Advances(|m.workers|, 5));
  }

  lemma RedeliveryDecides(j: Job, m: Machine, w: World, others: seq<Pc>, fact: Message, n: nat)
    requires ValidJob(j) && WorldOk(j, w) && fact in w.held && ForPackager(fact) && AllPersisted(j, w.table)
    requires w.pending == multiset{} && !SomePackaging(others) && m == Machine(w, others + [RecordFact(fact)], m.orphaned) && n == 5
    ensures Stranded(j, Run(j, m, Advances(|others|, n))) <==> Master !in w.store && !WinsPackaging(w.table, j.video, w.now)
  {
    FiveSteps(j, w, fact, n);
    WalkRuns(j, w, others, m.orphaned, RecordFact(fact), n);
    FifthIsStranded(j, w, fact, others, m.orphaned);
  }

  // ------------------------------------------------------------------- a short flush

  /** The flush decides. When the last packager comes to its last call, the video ends up stranded exactly
      when that flush times out and no copy of the announcement got out earlier. */
  lemma LastFlushDecides(j: Job, m: Machine, i: nat)
    requires ValidJob(j) && MachineOk(j, m) && i < |m.workers| && m.workers[i].FlushDone?
    requires forall k :: 0 <= k < |m.workers| && k != i ==> !IsPackaging(m.workers[k])
    requires m.w.pending == multiset{} && AllPersisted(j, m.w.table)
    ensures !Stranded(j, Acted(j, m, Advance(i)))
    ensures Stranded(j, Acted(j, m, FlushShort(i))) <==> !Told(j, m.w, true)
  {
    assert PcOk(j, m.w, m.workers[i]);
    DrainedTells(j, m, i);
    NobodyLeft(m.workers, i);
    ShortLeaves(j, m, i);
  }

  lemma ShortLeaves(j: Job, m: Machine, i: nat)
    requires i < |m.workers| && m.workers[i].FlushDone?
    ensures Acted(j, m, FlushShort(i)) == Machine(m.w, m.workers[i := Ended(true)], m.orphaned)
  {
  }

  lemma DrainedTells(j: Job, m: Machine, i: nat)
    requires i < |m.workers| && m.workers[i].FlushDone? && PackageOk(j, m.w, m.workers[i])
    ensures Told(j, Acted(j, m, Advance(i)).w, true)
  {
    FlushTells(j, m.w, m.workers[i], true);
  }

  lemma NobodyLeft(workers: seq<Pc>, i: nat)
    requires i < |workers| && forall k :: 0 <= k < |workers| && k != i ==> !IsPackaging(workers[k])
    ensures !SomePackaging(workers[i := Ended(true)])
  {
  }
}
