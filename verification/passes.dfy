/** One delivery from start to end when nothing goes wrong, case by case, and what an exception on the way
    leaves (backend/services/worker_transcode/main.py, worker_package/main.py). */
module Passes {
  import opened Text
  import opened Ladder
  import opened Tables
  import opened Storage
  import opened Pipeline
  import opened Safety
  import opened Joining
  import opened Stranding
  import opened Progress
  import Hls

  // ------------------------------------------------------------------------ transcode

  /** MP4 and playlist are there: announced again, and nothing is written anywhere. */
  lemma FinishedIsAnnouncedAgain(j: Job, w: World, r: string, n: nat)
    requires Mp4(r) in w.store && Playlist(r) in w.store && n == 4
    ensures Goes(j, w, HeadMp4(r), n, Send(w, ReadyMessage(j, r)), Ended(true))
  {
    BothThere(j, w, r);
    TellSteps(j, w, r);
    Starts(j, n - 1, w, HeadMp4(r), w, HeadPlaylist(r, true), w, TellReady(r), Hold(w, ReadyMessage(j, r)), FlushReady(r));
    SendAgain(w, ReadyMessage(j, r));
    GoesOn(j, w, HeadMp4(r), n - 1, Hold(w, ReadyMessage(j, r)), FlushReady(r), Send(w, ReadyMessage(j, r)), Ended(true));
  }

  lemma SendAgain(w: World, m: Message)
    ensures Send(Hold(w, m), m) == Send(w, m)
  {
    assert w.held + {m} + {m} == w.held + {m};
  }

  lemma BothThere(j: Job, w: World, r: string)
    requires Mp4(r) in w.store && Playlist(r) in w.store
    ensures Step(j, w, HeadMp4(r)) == (w, HeadPlaylist(r, true))
    ensures Step(j, w, HeadPlaylist(r, true)) == (w, TellReady(r))
  {
  }

  lemma OnlyMp4There(j: Job, w: World, r: string)
    requires Mp4(r) in w.store && Playlist(r) !in w.store
    ensures Step(j, w, HeadMp4(r)) == (w, HeadPlaylist(r, true))
    ensures Step(j, w, HeadPlaylist(r, true)) == (w, UploadSegment(r, 0))
  {
  }

  function Remuxed(j: Job, w: World, r: string): World {
    Send(PlaylistMade(j, SegmentsMade(j, w, r, |j.segments(r)|), r), ReadyMessage(j, r))
  }

  /** Only the MP4 is there: remuxed without a claim and without encoding. */
  lemma Mp4IsRemuxed(j: Job, w: World, r: string)
    requires Mp4(r) in w.store && Playlist(r) !in w.store
    ensures Goes(j, w, HeadMp4(r), |j.segments(r)| + 8, Remuxed(j, w, r), Ended(true))
    ensures Remuxed(j, w, r).table == w.table && Remuxed(j, w, r).mp4Copies == w.mp4Copies
  {
    var n := 2;
    OnlyMp4There(j, w, r);
    Twice(j, n, w, HeadMp4(r), w, HeadPlaylist(r, true), w, UploadSegment(r, 0));
    UploadsSegments(j, w, HeadMp4(r), n, w, r, |j.segments(r)|);
    Publishes(j, w, HeadMp4(r), n + |j.segments(r)|, SegmentsMade(j, w, r, |j.segments(r)|), r);
    SegmentsOnly(j, w, r, |j.segments(r)|);
  }

  /** No MP4 and a live claim: the handler raises, and nothing is written. */
  lemma DeniedRaises(j: Job, w: World, r: string)
    requires Mp4(r) !in w.store && !WinsRendition(w.table, j.video, r, w.now)
    ensures Step(j, w, HeadMp4(r)) == (w, HeadPlaylist(r, false))
    ensures Step(j, w, HeadPlaylist(r, false)) == (w, ClaimRow(r))
    ensures Step(j, w, ClaimRow(r)) == (w, Ended(false))
  {
  }

  lemma {:induction false} SegmentsThere(j: Job, w: World, r: string, k: nat, i: nat)
    requires i < k <= |j.segments(r)|
    ensures var key := Segment(r, j.segments(r)[i]); var store := SegmentsMade(j, w, r, k).store;
            key in store && store[key] == Chunk(r, j.segments(r)[i])
  {
    if i < k - 1 {
      SegmentsThere(j, w, r, k - 1, i);
    }
  }

  /** What a transcode leaves in the bucket, with or without the encode: the MP4, every segment, the playlist
      that lists them, and none of its scratch objects. */
  ghost predicate Delivered(j: Job, store: map<Key, Content>, r: string) {
    && Mp4(r) in store && PlaylistPart(r) !in store
    && Playlist(r) in store && store[Playlist(r)] == Listing(j.segments(r))
    && forall i :: 0 <= i < |j.segments(r)| ==> Segment(r, j.segments(r)[i]) in store && store[Segment(r, j.segments(r)[i])] == Chunk(r, j.segments(r)[i])
  }

  lemma RemuxDelivers(j: Job, w: World, r: string)
    requires Mp4(r) in w.store
    ensures Delivered(j, Remuxed(j, w, r).store, r) && Remuxed(j, w, r).store[Mp4(r)] == w.store[Mp4(r)]
  {
    var n := |j.segments(r)|;
    SegmentsKeep(j, w, r, n, Mp4(r));
    forall i | 0 <= i < n
      ensures var key := Segment(r, j.segments(r)[i]); key in Remuxed(j, w, r).store && Remuxed(j, w, r).store[key] == Chunk(r, j.segments(r)[i])
    {
      SegmentsThere(j, w, r, n, i);
    }
  }

  lemma {:induction false} SegmentsKeep(j: Job, w: World, r: string, k: nat, key: Key)
    requires k <= |j.segments(r)| && !key.Segment?
    ensures key in SegmentsMade(j, w, r, k).store <==> key in w.store
    ensures key in w.store ==> SegmentsMade(j, w, r, k).store[key] == w.store[key]
  {
    if k > 0 {
      SegmentsKeep(j, w, r, k - 1, key);
    }
  }

  lemma EncodeDelivers(j: Job, w: World, r: string)
    ensures var store := Transcoded(j, w, r).store;
            Delivered(j, store, r) && store[Mp4(r)] == Encoded(r) && Mp4Part(r) !in store
  {
    var w1 := Mp4Made(RowClaimed(j, w, r), r);
    assert Transcoded(j, w, r) == Remuxed(j, w1, r);
    Mp4IsMade(RowClaimed(j, w, r), r);
    RemuxDelivers(j, w1, r);
    SegmentsKeep(j, w1, r, |j.segments(r)|, Mp4Part(r));
  }

  lemma Mp4IsMade(w: World, r: string)
    ensures var store := Mp4Made(w, r).store; Mp4(r) in store && store[Mp4(r)] == Encoded(r) && Mp4Part(r) !in store
  {
  }

  /** No MP4 and the claim won: the row is stamped, the encode is delivered, and announced. */
  lemma WonIsEncoded(j: Job, w: World, r: string)
    requires Mp4(r) !in w.store && WinsRendition(w.table, j.video, r, w.now)
    ensures Goes(j, w, HeadMp4(r), |j.segments(r)| + 12, Transcoded(j, w, r), Ended(true))
    ensures var w' := Transcoded(j, w, r);
            && w'.table == Apply(w.table, Op.ClaimRendition(j.owner, j.video, r, w.now))
            && Delivered(j, w'.store, r) && w'.store[Mp4(r)] == Encoded(r) && Mp4Part(r) !in w'.store
            && w'.mp4Copies == w.mp4Copies + multiset{r}
  {
    TranscodesAlone(j, w, r);
    TranscodedFacts(j, w, r);
    EncodeDelivers(j, w, r);
    TranscodedCopies(j, w, r);
  }

  lemma TranscodedCopies(j: Job, w: World, r: string)
    ensures Transcoded(j, w, r).mp4Copies == w.mp4Copies + multiset{r}
  {
    var w1 := Mp4Made(RowClaimed(j, w, r), r);
    SegmentsOnly(j, w1, r, |j.segments(r)|);
    assert w1.mp4Copies == w.mp4Copies + multiset{r};
  }

  // -------------------------------------------------------------------------- package

  /** A fact the packager cannot take: a rendition without a row, or a message of another type. Nothing is
      written. */
  lemma UnrecordedRaises(j: Job, w: World, fact: Message)
    requires match fact case Planned(_) => false case Ready(r, _) => !HasRendition(w.table, j.video, r) case _ => true
    ensures Step(j, w, RecordFact(fact)) == (w, Ended(false))
  {
  }

  /** Some expected rendition is missing, or no plan is in: recorded, and left to a later delivery. */
  lemma UnreadyEnds(j: Job, w: World, fact: Message)
    ensures ExpectedOf(w.table, j.video) == [] ==> Step(j, w, ReadExpected(fact)) == (w, Ended(true))
    ensures forall expected :: (exists r :: r in expected && !HasPlaylist(w.table, j.video, r))
              ==> Step(j, w, ReadRows(fact, expected)) == (w, Ended(true))
  {
    forall expected | exists r :: r in expected && !HasPlaylist(w.table, j.video, r)
      ensures Step(j, w, ReadRows(fact, expected)) == (w, Ended(true))
    {
      var r :| r in expected && !HasPlaylist(w.table, j.video, r);
    }
  }

  /** The master is there: announced again, without a claim and without a write. */
  lemma PackagedIsAnnouncedAgain(j: Job, w: World, fact: Message, names: seq<Rendition>, n: nat)
    requires Master in w.store && n == 3
    ensures Goes(j, w, CheckMaster(fact, names), n, Send(w, DoneMessage(j, names)), Ended(true))
  {
    var w1 := Hold(w, DoneMessage(j, names));
    AnnounceSteps(j, w, fact, names, false);
    SendAgain(w, DoneMessage(j, names));
    assert Step(j, w, CheckMaster(fact, names)) == (w, TellDone(fact, names, false));
    Starts(j, n, w, CheckMaster(fact, names), w, TellDone(fact, names, false), w1, FlushDone(fact, names, false), Send(w, DoneMessage(j, names)), Ended(true));
  }

  lemma AnnounceSteps(j: Job, w: World, fact: Message, names: seq<Rendition>, claimed: bool)
    ensures Step(j, w, TellDone(fact, names, claimed)) == (Hold(w, DoneMessage(j, names)), FlushDone(fact, names, claimed))
    ensures Step(j, Hold(w, DoneMessage(j, names)), FlushDone(fact, names, claimed)) == (Send(Hold(w, DoneMessage(j, names)), DoneMessage(j, names)), Ended(true))
  {
  }

  /** The claim is won: the master is written, its scratch object is gone, and the video is announced. */
  lemma WonIsPackaged(j: Job, w: World, fact: Message, n: nat)
    requires n == 5
    ensures var names := InTextOrder(j.ladder); var w' := Send(MasterMade(j, w), DoneMessage(j, names));
            && Goes(j, w, UploadMaster(fact, names), n, w', Ended(true))
            && Master in w'.store && w'.store[Master] == Lines(Hls.MasterText(names)) && MasterPart !in w'.store
            && w'.table == w.table
  {
    var names := InTextOrder(j.ladder);
    var w1 := MasterMade(j, w);
    WritesAlone(j, w, fact, n - 1);
    AnnounceSteps(j, w1, fact, names, true);
    SendAgain(w1, DoneMessage(j, names));
    GoesOn(j, w, UploadMaster(fact, names), n - 1, Hold(w1, DoneMessage(j, names)), FlushDone(fact, names, true), Send(w1, DoneMessage(j, names)), Ended(true));
  }

  // ------------------------------------------------------------------------ exceptions

  /** Raised at a worker, and the handler for it run. */
  function RaisedAndReleased(j: Job, w: World, pc: Pc): (World, Pc) {
    if Raised(pc).ReleaseVideo? then Step(j, w, Raised(pc)) else (w, Raised(pc))
  }

  /** From the moment the claim is won until the handler ends, an exception gives it back, whatever has been
      written by then. Before that, and when the video is merely announced again, there is nothing to give
      back, and the claim another worker may hold is left alone. */
  lemma ClaimIsGivenBack(j: Job, w: World, fact: Message, names: seq<Rendition>, expected: seq<string>)
    ensures forall pc :: pc in {UploadMaster(fact, names), CopyMaster(fact, names), DeleteMasterPart(fact, names),
                                TellDone(fact, names, true), FlushDone(fact, names, true)}
              ==> RaisedAndReleased(j, w, pc) == (w.(table := w.table - {V(j.video, PackagingClaimedAt)}), Ended(false))
    ensures forall pc :: pc in {RecordFact(fact), ReadExpected(fact), ReadRows(fact, expected), CheckMaster(fact, names), ClaimVideo(fact, names),
                                TellDone(fact, names, false), FlushDone(fact, names, false)}
              ==> RaisedAndReleased(j, w, pc) == (w, Ended(false))
  {
  }

  /** Where the places of a packager that has won lead: exactly those, in that order. */
  function AfterWinning(store: map<Key, Content>, pc: Pc): Pc {
    match pc
    case UploadMaster(fact, names) => CopyMaster(fact, names)
    case CopyMaster(fact, names) => if MasterPart in store then DeleteMasterPart(fact, names) else ReleaseVideo(fact)
    case DeleteMasterPart(fact, names) => TellDone(fact, names, true)
    case TellDone(fact, names, claimed) => FlushDone(fact, names, claimed)
    case _ => Ended(true)
  }

  lemma WinnersPath(j: Job, w: World, pc: Pc)
    requires pc.UploadMaster? || pc.CopyMaster? || pc.DeleteMasterPart? || pc.TellDone? || pc.FlushDone?
    ensures Step(j, w, pc).1 == AfterWinning(w.store, pc)
  {
  }

  lemma WinnerStarts(j: Job, w: World, fact: Message, names: seq<Rendition>)
    ensures WinsPackaging(w.table, j.video, w.now) <==> Step(j, w, ClaimVideo(fact, names)).1 == UploadMaster(fact, names)
  {
  }

  // ---------------------------------------------------------------------- the fan-out

  ghost predicate PlanFirst(j: Job, m: Machine) {
    && (forall k :: 0 <= k < |j.ladder| && Requested(j.ladder[k]) in m.w.held ==> Planned(j.ladder) in m.w.held)
    && (forall i :: 0 <= i < |m.workers| && m.workers[i].Probing? && m.workers[i].next > 0 ==> Planned(j.ladder) in m.w.held)
  }

  lemma {:induction false} SendFirstHolds(j: Job, w: World, k: nat)
    requires k <= |j.ladder| + 1
    ensures w.held <= SendFirst(j, w, k).held && (k > 0 ==> Planned(j.ladder) in SendFirst(j, w, k).held)
  {
    if k > 0 {
      SendFirstHolds(j, w, k - 1);
    }
  }

  lemma StepHolds(j: Job, w: World, pc: Pc)
    requires pc.Probing? && pc.next > 0 ==> Planned(j.ladder) in w.held
    ensures var (w', pc') := Step(j, w, pc);
            && w.held <= w'.held
            && (pc'.Probing? && pc'.next > 0 ==> Planned(j.ladder) in w'.held)
            && (forall m :: m in w'.held && m !in w.held && m.Requested? ==> Planned(j.ladder) in w'.held)
  {
    if pc.Probing? {
      SendFirstHolds(j, w, |j.ladder| + 1);
    }
  }

  lemma ActPlansFirst(j: Job, m: Machine, a: Action)
    requires PlanFirst(j, m)
    ensures PlanFirst(j, Acted(j, m, a))
  {
    match a
    case Advance(i) =>
      if i < |m.workers| {
        StepHolds(j, m.w, m.workers[i]);
        var (w, pc) := Step(j, m.w, m.workers[i]);
        MovesPlanFirst(j, m, i, w, pc);
      }
    case Raise(i) =>
      if i < |m.workers| {
        MovesPlanFirst(j, m, i, m.w, Raised(m.workers[i]));
      }
    case Kill(i) =>
      if i < |m.workers| {
        MovesPlanFirst(j, m, i, m.w, Ended(false));
      }
    case FlushShort(i) =>
      if i < |m.workers| {
        MovesPlanFirst(j, m, i, m.w, Ended(true));
      }
    case _ =>
  }

  lemma MovesPlanFirst(j: Job, m: Machine, i: nat, w: World, pc: Pc)
    requires PlanFirst(j, m) && i < |m.workers| && m.w.held <= w.held
    requires pc.Probing? && pc.next > 0 ==> Planned(j.ladder) in w.held
    requires forall m2 :: m2 in w.held && m2 !in m.w.held && m2.Requested? ==> Planned(j.ladder) in w.held
    ensures PlanFirst(j, Moved(m, i, w, pc))
  {
  }

  /** Over every run, no request is handed out before the plan that lists it. */
  lemma {:induction false} PlanComesFirst(j: Job, t: Table, now: int, actions: seq<Action>)
    ensures PlanFirst(j, Run(j, Begin(t, now), actions))
  {
    if actions != [] {
      PlanComesFirst(j, t, now, actions[..|actions| - 1]);
      ActPlansFirst(j, Run(j, Begin(t, now), actions[..|actions| - 1]), actions[|actions| - 1]);
    }
  }
}
