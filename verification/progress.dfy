/** Runs that exist: for every video a run without faults that completes it; cut short by one hard kill
    between the packager's claim and its write, or by one flush that times out, it strands the video. */
module Progress {
  import opened Text
  import opened Folds
  import opened Ladder
  import opened Tables
  import opened Storage
  import opened Pipeline
  import opened Safety
  import opened Joining
  import opened Stranding

  // ------------------------------------------------------------- one worker by itself

  /** The first `k` messages of the probe, handed to its producer. */
  function HoldFirst(j: Job, w: World, k: nat): World
    requires k <= |j.ladder| + 1
  {
    if k == 0 then w else Hold(HoldFirst(j, w, k - 1), ProbeMessage(j, k - 1))
  }

  lemma {:induction false} ProbeGoes(j: Job, w: World, k: nat)
    requires k <= |j.ladder| + 1
    ensures Goes(j, w, Probing(0), k, HoldFirst(j, w, k), Probing(k))
  {
    if k == 0 {
      Stays(j, w, Probing(0), k);
    } else {
      ProbeGoes(j, w, k - 1);
      GoesOn(j, w, Probing(0), k - 1, HoldFirst(j, w, k - 1), Probing(k - 1), HoldFirst(j, w, k), Probing(k));
    }
  }

  function Probed(j: Job, w: World): World {
    SendFirst(j, HoldFirst(j, w, |j.ladder| + 1), |j.ladder| + 1)
  }

  /** All that differs between two worlds is what has been published and is pending. */
  predicate OnlySent(w: World, w': World) {
    w' == w.(held := w'.held, published := w'.published, pending := w'.pending)
  }

  lemma {:induction false} HoldFirstSends(j: Job, w: World, k: nat)
    requires k <= |j.ladder| + 1
    ensures HoldFirst(j, w, k) == w.(held := HoldFirst(j, w, k).held)
  {
    if k > 0 {
      HoldFirstSends(j, w, k - 1);
    }
  }

  lemma {:induction false} SendFirstSends(j: Job, w: World, k: nat)
    requires k <= |j.ladder| + 1
    ensures OnlySent(w, SendFirst(j, w, k))
    ensures SendFirst(j, w, k).pending == if k == 0 then w.pending else w.pending + multiset{Planned(j.ladder)}
  {
    if k > 0 {
      SendFirstSends(j, w, k - 1);
    }
  }

  lemma {:induction false} SendFirstPublishes(j: Job, w: World, k: nat, i: nat)
    requires i < k <= |j.ladder| + 1
    ensures ProbeMessage(j, i) in SendFirst(j, w, k).published
  {
    if i < k - 1 {
      SendFirstPublishes(j, w, k - 1, i);
    }
  }

  lemma ProbesAlone(j: Job, w: World)
    ensures Goes(j, w, Probing(0), |j.ladder| + 2, Probed(j, w), Ended(true))
  {
    ProbeGoes(j, w, |j.ladder| + 1);
    GoesOn(j, w, Probing(0), |j.ladder| + 1, HoldFirst(j, w, |j.ladder| + 1), Probing(|j.ladder| + 1), Probed(j, w), Ended(true));
  }

  // One transcode.

  function RowClaimed(j: Job, w: World, r: string): World {
    Write(w, Op.ClaimRendition(j.owner, j.video, r, w.now))
  }

  function Mp4Copied(w: World, r: string): World {
    Put(Put(w, Mp4Part(r), Encoded(r)), Mp4(r), Encoded(r)).(mp4Copies := w.mp4Copies + multiset{r})
  }

  function Mp4Made(w: World, r: string): World {
    Drop(Mp4Copied(w, r), Mp4Part(r))
  }

  function SegmentsMade(j: Job, w: World, r: string, k: nat): World
    requires k <= |j.segments(r)|
  {
    if k == 0 then w
    else Put(SegmentsMade(j, w, r, k - 1), Segment(r, j.segments(r)[k - 1]), Chunk(r, j.segments(r)[k - 1]))
  }

  function PartMade(j: Job, w: World, r: string): World {
    Put(w, PlaylistPart(r), Listing(j.segments(r)))
  }

  function PlaylistCopied(j: Job, w: World, r: string): World {
    Put(PartMade(j, w, r), Playlist(r), Listing(j.segments(r)))
  }

  function PlaylistMade(j: Job, w: World, r: string): World {
    Drop(PlaylistCopied(j, w, r), PlaylistPart(r))
  }

  function Transcoded(j: Job, w: World, r: string): World {
    Send(PlaylistMade(j, SegmentsMade(j, Mp4Made(RowClaimed(j, w, r), r), r, |j.segments(r)|), r), ReadyMessage(j, r))
  }

  lemma LookSteps(j: Job, w: World, r: string)
    requires Mp4(r) !in w.store && WinsRendition(w.table, j.video, r, w.now)
    ensures Step(j, w, HeadMp4(r)) == (w, HeadPlaylist(r, false))
    ensures Step(j, w, HeadPlaylist(r, false)) == (w, ClaimRow(r))
    ensures Step(j, w, ClaimRow(r)) == (RowClaimed(j, w, r), UploadMp4(r))
  {
  }

  lemma Looks(j: Job, w: World, r: string, n: nat)
    requires Mp4(r) !in w.store && WinsRendition(w.table, j.video, r, w.now) && n == 3
    ensures Goes(j, w, HeadMp4(r), n, RowClaimed(j, w, r), UploadMp4(r))
  {
    LookSteps(j, w, r);
    Starts(j, n, w, HeadMp4(r), w, HeadPlaylist(r, false), w, ClaimRow(r), RowClaimed(j, w, r), UploadMp4(r));
  }

  lemma Mp4Steps(j: Job, w: World, r: string)
    ensures Step(j, w, UploadMp4(r)) == (Put(w, Mp4Part(r), Encoded(r)), CopyMp4(r))
    ensures Step(j, Put(w, Mp4Part(r), Encoded(r)), CopyMp4(r)) == (Mp4Copied(w, r), DeleteMp4Part(r))
    ensures Step(j, Mp4Copied(w, r), DeleteMp4Part(r)) == (Mp4Made(w, r), UploadSegment(r, 0))
  {
  }

  lemma Encodes(j: Job, w: World, pc: Pc, n: nat, w1: World, r: string)
    requires Goes(j, w, pc, n, w1, UploadMp4(r))
    ensures Goes(j, w, pc, n + 3, Mp4Made(w1, r), UploadSegment(r, 0))
  {
    Mp4Steps(j, w1, r);
    Chain(j, w, pc, n, w1, UploadMp4(r), Put(w1, Mp4Part(r), Encoded(r)), CopyMp4(r), Mp4Copied(w1, r), DeleteMp4Part(r), Mp4Made(w1, r), UploadSegment(r, 0));
  }

  function WithSegment(j: Job, w: World, r: string, k: nat): World
    requires k < |j.segments(r)|
  {
    Put(w, Segment(r, j.segments(r)[k]), Chunk(r, j.segments(r)[k]))
  }

  lemma OneSegment(j: Job, w: World, r: string, k: nat)
    requires k < |j.segments(r)|
    ensures Step(j, w, UploadSegment(r, k)) == (WithSegment(j, w, r, k), UploadSegment(r, k + 1))
  {
  }

  lemma OneMoreMade(j: Job, w: World, r: string, k: nat)
    requires 0 < k <= |j.segments(r)|
    ensures SegmentsMade(j, w, r, k) == WithSegment(j, SegmentsMade(j, w, r, k - 1), r, k - 1)
  {
  }

  ghost function AtSegment(j: Job, w: World, pc: Pc, n: nat, w1: World, r: string): nat -> bool {
    (i: nat) => i <= |j.segments(r)| && Goes(j, w, pc, n + i, SegmentsMade(j, w1, r, i), UploadSegment(r, i))
  }

  lemma NextSegment(j: Job, w: World, pc: Pc, n: nat, w1: World, r: string, i: nat)
    requires i < |j.segments(r)| && AtSegment(j, w, pc, n, w1, r)(i)
    ensures AtSegment(j, w, pc, n, w1, r)(i + 1)
  {
    NextSegmentGoes(j, w, pc, n + i, n + (i + 1), w1, r, i);
  }

  lemma FirstSegment(j: Job, w: World, pc: Pc, n: nat, w1: World, r: string)
    requires Goes(j, w, pc, n, w1, UploadSegment(r, 0))
    ensures AtSegment(j, w, pc, n, w1, r)(0)
  {
  }

  lemma AllSegments(j: Job, w: World, pc: Pc, n: nat, w1: World, r: string, last: nat)
    requires last <= |j.segments(r)| && AtSegment(j, w, pc, n, w1, r)(0)
    ensures AtSegment(j, w, pc, n, w1, r)(last)
  {
    forall i | 0 <= i < last && AtSegment(j, w, pc, n, w1, r)(i)
      ensures AtSegment(j, w, pc, n, w1, r)(i + 1)
    {
      NextSegment(j, w, pc, n, w1, r, i);
    }
    Climb(AtSegment(j, w, pc, n, w1, r), last);
  }

  lemma UploadsSegments(j: Job, w: World, pc: Pc, n: nat, w1: World, r: string, last: nat)
    requires last == |j.segments(r)| && Goes(j, w, pc, n, w1, UploadSegment(r, 0))
    ensures Goes(j, w, pc, n + last, SegmentsMade(j, w1, r, last), UploadSegment(r, last))
  {
    FirstSegment(j, w, pc, n, w1, r);
    AllSegments(j, w, pc, n, w1, r, last);
  }

  lemma NextSegmentGoes(j: Job, w: World, pc: Pc, n: nat, next: nat, w1: World, r: string, k: nat)
    requires next == n + 1 && k < |j.segments(r)| && Goes(j, w, pc, n, SegmentsMade(j, w1, r, k), UploadSegment(r, k))
    ensures Goes(j, w, pc, next, SegmentsMade(j, w1, r, k + 1), UploadSegment(r, k + 1))
  {
    SegmentGoes(j, w, pc, n, SegmentsMade(j, w1, r, k), r, k);
    OneMoreMade(j, w1, r, k + 1);
  }

  lemma SegmentGoes(j: Job, w: World, pc: Pc, n: nat, w1: World, r: string, k: nat)
    requires k < |j.segments(r)| && Goes(j, w, pc, n, w1, UploadSegment(r, k))
    ensures Goes(j, w, pc, n + 1, WithSegment(j, w1, r, k), UploadSegment(r, k + 1))
  {
    OneSegment(j, w1, r, k);
    GoesOn(j, w, pc, n, w1, UploadSegment(r, k), WithSegment(j, w1, r, k), UploadSegment(r, k + 1));
  }

  lemma PlaylistSteps(j: Job, w: World, r: string)
    ensures Step(j, w, UploadSegment(r, |j.segments(r)|)) == (w, UploadPlaylist(r))
    ensures Step(j, w, UploadPlaylist(r)) == (PartMade(j, w, r), CopyPlaylist(r))
    ensures Step(j, PartMade(j, w, r), CopyPlaylist(r)) == (PlaylistCopied(j, w, r), DeletePlaylistPart(r))
    ensures Step(j, PlaylistCopied(j, w, r), DeletePlaylistPart(r)) == (PlaylistMade(j, w, r), TellReady(r))
  {
  }

  lemma TellSteps(j: Job, w: World, r: string)
    ensures Step(j, w, TellReady(r)) == (Hold(w, ReadyMessage(j, r)), FlushReady(r))
    ensures Step(j, Hold(w, ReadyMessage(j, r)), FlushReady(r)) == (Send(w, ReadyMessage(j, r)), Ended(true))
  {
  }

  lemma Publishes(j: Job, w: World, pc: Pc, n: nat, w1: World, r: string)
    requires Goes(j, w, pc, n, w1, UploadSegment(r, |j.segments(r)|))
    ensures Goes(j, w, pc, n + 6, Send(PlaylistMade(j, w1, r), ReadyMessage(j, r)), Ended(true))
  {
    var w2 := PlaylistMade(j, w1, r);
    PlaylistSteps(j, w1, r);
    TellSteps(j, w2, r);
    Chain(j, w, pc, n, w1, UploadSegment(r, |j.segments(r)|), w1, UploadPlaylist(r), PartMade(j, w1, r), CopyPlaylist(r), PlaylistCopied(j, w1, r), DeletePlaylistPart(r));
    Chain(j, w, pc, n + 3, PlaylistCopied(j, w1, r), DeletePlaylistPart(r), w2, TellReady(r), Hold(w2, ReadyMessage(j, r)), FlushReady(r), Send(w2, ReadyMessage(j, r)), Ended(true));
  }

  lemma TranscodesAlone(j: Job, w: World, r: string)
    requires Mp4(r) !in w.store && WinsRendition(w.table, j.video, r, w.now)
    ensures Goes(j, w, HeadMp4(r), |j.segments(r)| + 12, Transcoded(j, w, r), Ended(true))
  {
    var n := 3;
    var w1 := RowClaimed(j, w, r);
    Looks(j, w, r, n);
    Encodes(j, w, HeadMp4(r), n, w1, r);
    UploadsSegments(j, w, HeadMp4(r), n + 3, Mp4Made(w1, r), r, |j.segments(r)|);
    Publishes(j, w, HeadMp4(r), n + 3 + |j.segments(r)|, SegmentsMade(j, Mp4Made(w1, r), r, |j.segments(r)|), r);
  }

  // -------------------------------------------------------------- the transcode phase

  ghost predicate AllEnded(workers: seq<Pc>) {
    forall i :: 0 <= i < |workers| ==> workers[i] == Ended(true)
  }

  function ReadyUpTo(j: Job, k: nat): multiset<Message>
    requires k <= |j.ladder|
  {
    if k == 0 then multiset{} else ReadyUpTo(j, k - 1) + multiset{ReadyMessage(j, j.ladder[k - 1])}
  }

  /** The packager has done nothing. */
  ghost predicate Unpackaged(j: Job, w: World) {
    HasVideo(w.table, j.video) && V(j.video, PackagingClaimedAt) !in w.table && Master !in w.store
  }

  ghost predicate Requests(j: Job, w: World) {
    Planned(j.ladder) in w.published && forall i :: 0 <= i < |j.ladder| ==> Requested(j.ladder[i]) in w.published
  }

  /** The first `k` renditions are made and told of. */
  ghost predicate MadeUpTo(j: Job, w: World, k: nat)
    requires k <= |j.ladder|
  {
    && (forall i :: 0 <= i < k ==> HasRendition(w.table, j.video, j.ladder[i]) && ReadyMessage(j, j.ladder[i]) in w.published)
    && (forall i :: k <= i < |j.ladder| ==> Mp4(j.ladder[i]) !in w.store && !HasRendition(w.table, j.video, j.ladder[i]))
  }

  ghost predicate Making(j: Job, w: World, k: nat) {
    && k <= |j.ladder| && Unpackaged(j, w) && Requests(j, w) && MadeUpTo(j, w, k)
    && (forall r :: !HasPlaylist(w.table, j.video, r))
    && w.pending == multiset{Planned(j.ladder)} + ReadyUpTo(j, k)
  }

  lemma {:induction false} SegmentsOnly(j: Job, w: World, r: string, k: nat)
    requires k <= |j.segments(r)|
    ensures var w' := SegmentsMade(j, w, r, k);
            w' == w.(store := w'.store) && forall key: Key :: !key.Segment? ==> (key in w'.store <==> key in w.store)
  {
    if k > 0 {
      SegmentsOnly(j, w, r, k - 1);
    }
  }

  lemma ClaimedRows(t: Table, owner: string, v: string, r: string, now: int, q: string)
    ensures var t' := Apply(t, Op.ClaimRendition(owner, v, r, now));
            && (HasRendition(t', v, q) <==> HasRendition(t, v, q) || q == r)
            && (HasPlaylist(t', v, q) <==> HasPlaylist(t, v, q))
  {
    PlaylistEffect(t, Op.ClaimRendition(owner, v, r, now), v, q);
  }

  lemma ClaimedVideo(j: Job, t: Table, r: string, now: int)
    ensures var t' := Apply(t, Op.ClaimRendition(j.owner, j.video, r, now));
            && (HasVideo(t', j.video) <==> HasVideo(t, j.video))
            && (V(j.video, PackagingClaimedAt) in t' <==> V(j.video, PackagingClaimedAt) in t)
  {
    OpEffect(t, Op.ClaimRendition(j.owner, j.video, r, now), j.video);
    ClaimKept(j, t, Op.ClaimRendition(j.owner, j.video, r, now));
  }

  /** What one transcode leaves. */
  lemma TranscodedFacts(j: Job, w: World, r: string)
    ensures var w' := Transcoded(j, w, r);
            && w'.table == RowClaimed(j, w, r).table && w'.now == w.now
            && (forall q :: Mp4(q) in w'.store <==> Mp4(q) in w.store || q == r)
            && (Master in w'.store <==> Master in w.store)
            && w'.published == w.published + {ReadyMessage(j, r)} && w'.pending == w.pending + multiset{ReadyMessage(j, r)}
  {
    var w1 := RowClaimed(j, w, r);
    var w2 := Mp4Made(w1, r);
    var w3 := SegmentsMade(j, w2, r, |j.segments(r)|);
    Mp4Facts(w1, r);
    SegmentsOnly(j, w2, r, |j.segments(r)|);
    PlaylistFacts(j, w3, r);
  }

  lemma Mp4Facts(w: World, r: string)
    ensures var w' := Mp4Made(w, r);
            && w' == w.(store := w'.store, mp4Copies := w'.mp4Copies)
            && (forall q :: Mp4(q) in w'.store <==> Mp4(q) in w.store || q == r)
            && (Master in w'.store <==> Master in w.store)
  {
  }

  lemma PlaylistFacts(j: Job, w: World, r: string)
    ensures var w' := PlaylistMade(j, w, r);
            && w' == w.(store := w'.store)
            && (forall q :: Mp4(q) in w'.store <==> Mp4(q) in w.store)
            && (Master in w'.store <==> Master in w.store)
  {
  }

  lemma LadderDistinct(j: Job, i: nat, k: nat)
    requires ValidJob(j) && i < |j.ladder| && k < |j.ladder| && i != k
    ensures j.ladder[i] != j.ladder[k]
  {
  }

  lemma MadeOneMore(j: Job, w: World, k: nat, w': World)
    requires ValidJob(j) && k < |j.ladder| && MadeUpTo(j, w, k)
    requires forall q :: Mp4(q) in w'.store <==> Mp4(q) in w.store || q == j.ladder[k]
    requires forall q :: HasRendition(w'.table, j.video, q) <==> HasRendition(w.table, j.video, q) || q == j.ladder[k]
    requires w'.published == w.published + {ReadyMessage(j, j.ladder[k])}
    ensures MadeUpTo(j, w', k + 1)
  {
    forall i | k + 1 <= i < |j.ladder|
      ensures Mp4(j.ladder[i]) !in w'.store && !HasRendition(w'.table, j.video, j.ladder[i])
    {
      LadderDistinct(j, i, k);
    }
  }

  lemma TranscodeMakes(j: Job, w: World, k: nat)
    requires ValidJob(j) && k < |j.ladder| && Making(j, w, k)
    ensures Making(j, Transcoded(j, w, j.ladder[k]), k + 1)
  {
    var r := j.ladder[k];
    var w' := Transcoded(j, w, r);
    TranscodedFacts(j, w, r);
    ClaimedVideo(j, w.table, r, w.now);
    forall q
      ensures HasRendition(w'.table, j.video, q) <==> HasRendition(w.table, j.video, q) || q == r
      ensures !HasPlaylist(w'.table, j.video, q)
    {
      ClaimedRows(w.table, j.owner, j.video, r, w.now, q);
    }
    MadeOneMore(j, w, k, w');
    assert multiset{Planned(j.ladder)} + ReadyUpTo(j, k) + multiset{ReadyMessage(j, r)} == multiset{Planned(j.ladder)} + ReadyUpTo(j, k + 1);
  }

  ghost predicate MakingIn(j: Job, m: Machine, k: nat) {
    AllEnded(m.workers) && !m.orphaned && Making(j, m.w, k)
  }

  lemma TranscodePhase(j: Job, m: Machine, k: nat)
    requires ValidJob(j) && k < |j.ladder| && MakingIn(j, m, k)
    ensures exists m' :: Reaches(j, m, m') && MakingIn(j, m', k + 1)
  {
    var r := j.ladder[k];
    TranscodesAlone(j, m.w, r);
    TranscodeMakes(j, m.w, k);
    var m' := Machine(Transcoded(j, m.w, r), m.workers + [Ended(true)], false);
    StartedReaches(j, m, StartTranscode(r), m.w, HeadMp4(r), |j.segments(r)| + 12, m'.w, Ended(true));
    assert MakingIn(j, m', k + 1);
  }

  lemma {:induction false} AllTranscoded(j: Job, m: Machine, k: nat)
    requires ValidJob(j) && k <= |j.ladder| && MakingIn(j, m, k)
    ensures exists m' :: Reaches(j, m, m') && MakingIn(j, m', |j.ladder|)
    decreases |j.ladder| - k
  {
    if k == |j.ladder| {
      assert Faultless([]) && Run(j, m, []) == m;
    } else {
      TranscodePhase(j, m, k);
      var m1 :| Reaches(j, m, m1) && MakingIn(j, m1, k + 1);
      AllTranscoded(j, m1, k + 1);
      var m2 :| Reaches(j, m1, m2) && MakingIn(j, m2, |j.ladder|);
      ReachesOn(j, m, m1, m2);
    }
  }

  lemma ProbePhase(j: Job, t: Table, now: int)
    requires ValidJob(j) && Unstarted(j, t)
    ensures exists m :: Reaches(j, Begin(t, now), m) && MakingIn(j, m, 0)
  {
    ProbeRuns(j, Begin(t, now));
    ProbedIsMaking(j, Begin(t, now).w);
    assert MakingIn(j, Machine(Probed(j, Begin(t, now).w), [] + [Ended(true)], false), 0);
  }

  lemma ProbeRuns(j: Job, m: Machine)
    ensures Reaches(j, m, Machine(Probed(j, m.w), m.workers + [Ended(true)], m.orphaned))
  {
    ProbesAlone(j, m.w);
    StartedReaches(j, m, StartProbe, m.w, Probing(0), |j.ladder| + 2, Probed(j, m.w), Ended(true));
  }

  lemma ProbedIsMaking(j: Job, w: World)
    requires Unstarted(j, w.table) && w.store == map[] && w.pending == multiset{}
    ensures Making(j, Probed(j, w), 0)
  {
    ProbedFacts(j, w);
    assert ReadyUpTo(j, 0) == multiset{};
    assert multiset{Planned(j.ladder)} + multiset{} == multiset{Planned(j.ladder)};
    forall i | 0 <= i < |j.ladder|
      ensures !HasRendition(w.table, j.video, j.ladder[i])
    {
      assert j.ladder[i] in j.ladder;
    }
  }

  lemma ProbedFacts(j: Job, w: World)
    requires w.pending == multiset{}
    ensures var w' := Probed(j, w);
            && w'.table == w.table && w'.store == w.store && w'.pending == multiset{Planned(j.ladder)}
            && Requests(j, w')
  {
    var n := |j.ladder| + 1;
    HoldFirstSends(j, w, n);
    SendFirstSends(j, HoldFirst(j, w, n), n);
    SendFirstPublishes(j, HoldFirst(j, w, n), n, 0);
    assert ProbeMessage(j, 0) == Planned(j.ladder);
    forall i | 0 <= i < |j.ladder|
      ensures Requested(j.ladder[i]) in Probed(j, w).published
    {
      SendFirstPublishes(j, HoldFirst(j, w, n), n, i + 1);
      assert ProbeMessage(j, i + 1) == Requested(j.ladder[i]);
    }
    assert multiset{} + multiset{Planned(j.ladder)} == multiset{Planned(j.ladder)};
  }

  /** Fresh, and no rendition has a row. */
  ghost predicate Unstarted(j: Job, t: Table) {
    Fresh(j, t) && forall r :: r in j.ladder ==> !HasRendition(t, j.video, r)
  }

  // ------------------------------------------------------------------- the join phase

  function Taken(w: World, fact: Message): World {
    w.(pending := w.pending - multiset{fact})
  }

  ghost predicate RowsReady(j: Job, w: World) {
    && ExpectedOf(w.table, j.video) == j.ladder
    && forall i :: 0 <= i < |j.ladder| ==> HasRendition(w.table, j.video, j.ladder[i]) && ReadyMessage(j, j.ladder[i]) in w.published
  }

  /** The plan and the renditions from `k` on are recorded; the first `k` are still to be handled. */
  ghost predicate Collecting(j: Job, w: World, k: nat) {
    && k <= |j.ladder| && Unpackaged(j, w) && RowsReady(j, w) && w.pending == ReadyUpTo(j, k)
    && (forall i :: 0 <= i < k ==> !HasPlaylist(w.table, j.video, j.ladder[i]))
    && (forall i :: k <= i < |j.ladder| ==> HasPlaylist(w.table, j.video, j.ladder[i]))
  }

  lemma PlanRecorded(j: Job, w: World)
    requires HasVideo(w.table, j.video)
    ensures var w1 := Recorded(j, w, Planned(j.ladder));
            && Step(j, w, RecordFact(Planned(j.ladder))) == (w1, ReadExpected(Planned(j.ladder))) && w1 == w.(table := w1.table)
            && ExpectedOf(w1.table, j.video) == j.ladder && HasVideo(w1.table, j.video)
            && (V(j.video, PackagingClaimedAt) in w1.table <==> V(j.video, PackagingClaimedAt) in w.table)
            && (forall r :: HasRendition(w.table, j.video, r) ==> HasRendition(w1.table, j.video, r))
  {
    OpEffect(w.table, Op.RecordExpected(j.video, j.ladder), j.video);
    ClaimKept(j, w.table, Op.RecordExpected(j.video, j.ladder));
  }

  lemma PlanPlaylists(j: Job, w: World, r: string)
    ensures HasPlaylist(Recorded(j, w, Planned(j.ladder)).table, j.video, r) <==> HasPlaylist(w.table, j.video, r)
  {
    PlaylistEffect(w.table, Op.RecordExpected(j.video, j.ladder), j.video, r);
  }

  lemma ReadyRecorded(j: Job, w: World, r: string)
    requires HasVideo(w.table, j.video) && HasRendition(w.table, j.video, r)
    ensures var fact := ReadyMessage(j, r); var w1 := Recorded(j, w, fact);
            && Step(j, w, RecordFact(fact)) == (w1, ReadExpected(fact)) && w1 == w.(table := w1.table)
            && ExpectedOf(w1.table, j.video) == ExpectedOf(w.table, j.video) && HasVideo(w1.table, j.video)
            && (V(j.video, PackagingClaimedAt) in w1.table <==> V(j.video, PackagingClaimedAt) in w.table)
            && (forall q :: HasRendition(w.table, j.video, q) ==> HasRendition(w1.table, j.video, q))
  {
    var op := Op.RecordPlaylist(j.video, r, ReadyMessage(j, r).playlist);
    OpEffect(w.table, op, j.video);
    ClaimKept(j, w.table, op);
  }

  lemma ReadyPlaylists(j: Job, w: World, r: string, q: string)
    requires HasRendition(w.table, j.video, r)
    ensures HasPlaylist(Recorded(j, w, ReadyMessage(j, r)).table, j.video, q) <==> HasPlaylist(w.table, j.video, q) || q == r
  {
    PlaylistEffect(w.table, Op.RecordPlaylist(j.video, r, ReadyMessage(j, r).playlist), j.video, q);
  }

  lemma NotReadySteps(j: Job, w: World, fact: Message)
    requires j.ladder != [] && ExpectedOf(w.table, j.video) == j.ladder && !HasPlaylist(w.table, j.video, j.ladder[0])
    ensures Step(j, w, ReadExpected(fact)) == (w, ReadRows(fact, j.ladder))
    ensures Step(j, w, ReadRows(fact, j.ladder)) == (w, Ended(true))
  {
    assert j.ladder[0] in j.ladder;
  }

  lemma RecordsAndLeaves(j: Job, w: World, fact: Message, n: nat)
    requires j.ladder != [] && n == 3
    requires var w1 := Recorded(j, w, fact);
             && Step(j, w, RecordFact(fact)) == (w1, ReadExpected(fact))
             && ExpectedOf(w1.table, j.video) == j.ladder && !HasPlaylist(w1.table, j.video, j.ladder[0])
    ensures Goes(j, w, RecordFact(fact), n, Recorded(j, w, fact), Ended(true))
  {
    var w1 := Recorded(j, w, fact);
    NotReadySteps(j, w1, fact);
    Starts(j, n, w, RecordFact(fact), w1, ReadExpected(fact), w1, ReadRows(fact, j.ladder), w1, Ended(true));
  }

  lemma PlanCollects(j: Job, w: World)
    requires ValidJob(j) && Making(j, w, |j.ladder|)
    ensures Collecting(j, Recorded(j, Taken(w, Planned(j.ladder)), Planned(j.ladder)), |j.ladder|)
  {
    var plan := Planned(j.ladder);
    var w0 := Taken(w, plan);
    PlanRecorded(j, w0);
    forall i | 0 <= i < |j.ladder|
      ensures !HasPlaylist(Recorded(j, w0, plan).table, j.video, j.ladder[i])
    {
      PlanPlaylists(j, w0, j.ladder[i]);
    }
    assert multiset{plan} + ReadyUpTo(j, |j.ladder|) - multiset{plan} == ReadyUpTo(j, |j.ladder|);
  }

  ghost predicate CollectingIn(j: Job, m: Machine, k: nat) {
    AllEnded(m.workers) && !m.orphaned && Collecting(j, m.w, k)
  }

  lemma PlanPhase(j: Job, m: Machine)
    requires ValidJob(j) && MakingIn(j, m, |j.ladder|)
    ensures exists m' :: Reaches(j, m, m') && CollectingIn(j, m', |j.ladder|)
  {
    var plan := Planned(j.ladder);
    var w0 := Taken(m.w, plan);
    PlanRecorded(j, w0);
    PlanPlaylists(j, w0, j.ladder[0]);
    PlanCollects(j, m.w);
    RecordsAndLeaves(j, w0, plan, 3);
    var m' := Machine(Recorded(j, w0, plan), m.workers + [Ended(true)], false);
    StartedReaches(j, m, StartPackage(plan, false), w0, RecordFact(plan), 3, m'.w, Ended(true));
    assert CollectingIn(j, m', |j.ladder|);
  }

  lemma ReadyCollects(j: Job, w: World, k: nat)
    requires ValidJob(j) && 0 < k && Collecting(j, w, k)
    ensures var fact := ReadyMessage(j, j.ladder[k - 1]); Collecting(j, Recorded(j, Taken(w, fact), fact), k - 1)
  {
    var r := j.ladder[k - 1];
    var fact := ReadyMessage(j, r);
    var w0 := Taken(w, fact);
    ReadyRecorded(j, w0, r);
    forall i | 0 <= i < |j.ladder|
      ensures HasPlaylist(Recorded(j, w0, fact).table, j.video, j.ladder[i]) <==> i >= k - 1
    {
      ReadyPlaylists(j, w0, r, j.ladder[i]);
      if i != k - 1 {
        LadderDistinct(j, i, k - 1);
      }
    }
    assert ReadyUpTo(j, k - 1) + multiset{fact} - multiset{fact} == ReadyUpTo(j, k - 1);
  }

  lemma ReadyPhase(j: Job, m: Machine, k: nat)
    requires ValidJob(j) && 1 < k && CollectingIn(j, m, k)
    ensures exists m' :: Reaches(j, m, m') && CollectingIn(j, m', k - 1)
  {
    var r := j.ladder[k - 1];
    var fact := ReadyMessage(j, r);
    var w0 := Taken(m.w, fact);
    ReadyRecorded(j, w0, r);
    ReadyPlaylists(j, w0, r, j.ladder[0]);
    LadderDistinct(j, 0, k - 1);
    ReadyCollects(j, m.w, k);
    RecordsAndLeaves(j, w0, fact, 3);
    var m' := Machine(Recorded(j, w0, fact), m.workers + [Ended(true)], false);
    StartedReaches(j, m, StartPackage(fact, false), w0, RecordFact(fact), 3, m'.w, Ended(true));
    assert CollectingIn(j, m', k - 1);
  }

  lemma {:induction false} AllButOne(j: Job, m: Machine, k: nat)
    requires ValidJob(j) && 1 <= k && CollectingIn(j, m, k)
    ensures exists m' :: Reaches(j, m, m') && CollectingIn(j, m', 1)
    decreases k
  {
    if k == 1 {
      assert Faultless([]) && Run(j, m, []) == m;
    } else {
      ReadyPhase(j, m, k);
      var m1 :| Reaches(j, m, m1) && CollectingIn(j, m1, k - 1);
      AllButOne(j, m1, k - 1);
      var m2 :| Reaches(j, m1, m2) && CollectingIn(j, m2, 1);
      ReachesOn(j, m, m1, m2);
    }
  }

  // ----------------------------------------------------------------- the last rendition

  /** A packager has just won the claim, with every other message handled and every other worker done. */
  ghost predicate AboutToWrite(j: Job, m: Machine) {
    && m.workers != [] && var last := |m.workers| - 1;
    && m.workers[last].UploadMaster? && m.workers[last].names == InTextOrder(j.ladder)
    && m.workers[last].fact in m.w.published
    && (forall k :: 0 <= k < last ==> !IsPackaging(m.workers[k]))
    && m.w.pending == multiset{} && AllPersisted(j, m.w.table) && Master !in m.w.store
    && !WinsPackaging(m.w.table, j.video, m.w.now) && !m.orphaned
  }

  lemma WinsSteps(j: Job, w: World, fact: Message, n: nat)
    requires ValidJob(j) && Unpackaged(j, w) && n == 5
    requires var w1 := Recorded(j, w, fact);
             Step(j, w, RecordFact(fact)) == (w1, ReadExpected(fact)) && Unpackaged(j, w1) && AllPersisted(j, w1.table)
    ensures Goes(j, w, RecordFact(fact), n, Claimed(j, Recorded(j, w, fact)), UploadMaster(fact, InTextOrder(j.ladder)))
  {
    var w1, names := Recorded(j, w, fact), InTextOrder(j.ladder);
    JoinSteps(j, w1, fact);
    LastStep(j, w1, fact, names);
    StartsFive(j, n, w, RecordFact(fact), w1, ReadExpected(fact), ReadRows(fact, j.ladder), CheckMaster(fact, names),
               ClaimVideo(fact, names), Claimed(j, w1), UploadMaster(fact, names));
  }

  lemma ClaimIsLive(j: Job, w: World)
    requires Unpackaged(j, w) && AllPersisted(j, w.table)
    ensures AllPersisted(j, Claimed(j, w).table) && !WinsPackaging(Claimed(j, w).table, j.video, w.now)
  {
    PersistedBefore(j, w.table, Op.ClaimPackaging(j.video, w.now));
  }

  lemma AllCollected(j: Job, w: World)
    requires Collecting(j, w, 0)
    ensures AllPersisted(j, w.table)
  {
    forall r | r in j.ladder
      ensures HasPlaylist(w.table, j.video, r)
    {
      var i :| 0 <= i < |j.ladder| && j.ladder[i] == r;
    }
  }

  lemma LastPhase(j: Job, m: Machine)
    requires ValidJob(j) && CollectingIn(j, m, 1)
    ensures exists m' :: Reaches(j, m, m') && AboutToWrite(j, m')
  {
    var fact := ReadyMessage(j, j.ladder[0]);
    var w0 := Taken(m.w, fact);
    var w1 := Recorded(j, w0, fact);
    ReadyRecorded(j, w0, j.ladder[0]);
    ReadyCollects(j, m.w, 1);
    AllCollected(j, w1);
    WinsSteps(j, w0, fact, 5);
    ClaimIsLive(j, w1);
    var m' := Machine(Claimed(j, w1), m.workers + [UploadMaster(fact, InTextOrder(j.ladder))], false);
    assert ReadyUpTo(j, 1) == ReadyUpTo(j, 0) + multiset{fact};
    StartedReaches(j, m, StartPackage(fact, false), w0, RecordFact(fact), 5, m'.w, UploadMaster(fact, InTextOrder(j.ladder)));
    assert AboutToWrite(j, m');
  }

  /** From a fresh upload, with no fault, for any ladder: a packager that has won its claim, all facts
      persisted and every other message handled. */
  lemma ClaimIsReached(j: Job, t: Table, now: int)
    requires ValidJob(j) && Unstarted(j, t)
    ensures exists m :: Reaches(j, Begin(t, now), m) && AboutToWrite(j, m)
  {
    ProbePhase(j, t, now);
    var m0 :| Reaches(j, Begin(t, now), m0) && MakingIn(j, m0, 0);
    AllTranscoded(j, m0, 0);
    var m1 :| Reaches(j, m0, m1) && MakingIn(j, m1, |j.ladder|);
    ReachesOn(j, Begin(t, now), m0, m1);
    JoinIsReached(j, m1);
    var m2 :| Reaches(j, m1, m2) && AboutToWrite(j, m2);
    ReachesOn(j, Begin(t, now), m1, m2);
  }

  lemma JoinIsReached(j: Job, m: Machine)
    requires ValidJob(j) && MakingIn(j, m, |j.ladder|)
    ensures exists m' :: Reaches(j, m, m') && AboutToWrite(j, m')
  {
    PlanPhase(j, m);
    var m1 :| Reaches(j, m, m1) && CollectingIn(j, m1, |j.ladder|);
    AllButOne(j, m1, |j.ladder|);
    var m2 :| Reaches(j, m1, m2) && CollectingIn(j, m2, 1);
    ReachesOn(j, m, m1, m2);
    LastPhase(j, m2);
    var m3 :| Reaches(j, m2, m3) && AboutToWrite(j, m3);
    ReachesOn(j, m, m2, m3);
  }

  // --------------------------------------------------------------------- three endings

  /** One hard kill. For every video some run goes without fault to a won claim and then strands it, however
      little time passes before the message is back. */
  lemma SomeKillStrands(j: Job, t: Table, now: int) returns (actions: seq<Action>, m: Machine)
    requires ValidJob(j) && Unstarted(j, t)
    ensures Faultless(actions) && m == Run(j, Begin(t, now), actions) && AboutToWrite(j, m)
    ensures var last := |m.workers| - 1;
            Stranded(j, Run(j, Begin(t, now), actions + (Comeback(j, m, last, 0) + Advances(|m.workers|, 5))))
  {
    ClaimIsReached(j, t, now);
    m :| Reaches(j, Begin(t, now), m) && AboutToWrite(j, m);
    actions :| Faultless(actions) && Run(j, Begin(t, now), actions) == m;
    RunOk(j, t, now, actions);
    KillStrands(j, m, |m.workers| - 1);
    RunConcat(j, Begin(t, now), actions, Comeback(j, m, |m.workers| - 1, 0) + Advances(|m.workers|, 5));
  }

  lemma KillStrands(j: Job, m: Machine, last: nat)
    requires ValidJob(j) && MachineOk(j, m) && AboutToWrite(j, m) && last == |m.workers| - 1
    ensures Stranded(j, Run(j, m, Comeback(j, m, last, 0) + Advances(|m.workers|, 5)))
  {
    HardKillStrands(j, m, last, 0);
  }

  function MasterCopied(j: Job, w: World): World {
    Put(Put(w, MasterPart, ContentOf(j, MasterPart)), Master, ContentOf(j, Master))
  }

  function MasterMade(j: Job, w: World): World {
    Drop(MasterCopied(j, w), MasterPart)
  }

  lemma WriteSteps(j: Job, w: World, fact: Message)
    ensures var names := InTextOrder(j.ladder);
            Step(j, w, UploadMaster(fact, names)) == (Put(w, MasterPart, ContentOf(j, MasterPart)), CopyMaster(fact, names))
  {
  }

  lemma CopyStep(j: Job, w: World, fact: Message, names: seq<Rendition>, text: Content)
    requires MasterPart in w.store && w.store[MasterPart] == text
    ensures Step(j, w, CopyMaster(fact, names)) == (Put(w, Master, text), DeleteMasterPart(fact, names))
  {
  }

  lemma FinishSteps(j: Job, w: World, fact: Message, names: seq<Rendition>)
    ensures Step(j, w, DeleteMasterPart(fact, names)) == (Drop(w, MasterPart), TellDone(fact, names, true))
    ensures Step(j, w, TellDone(fact, names, true)) == (Hold(w, DoneMessage(j, names)), FlushDone(fact, names, true))
  {
  }

  lemma WritesAlone(j: Job, w: World, fact: Message, n: nat)
    requires n == 4
    ensures var names := InTextOrder(j.ladder);
            Goes(j, w, UploadMaster(fact, names), n, Hold(MasterMade(j, w), DoneMessage(j, names)), FlushDone(fact, names, true))
  {
    var names := InTextOrder(j.ladder);
    WriteSteps(j, w, fact);
    CopyStep(j, Put(w, MasterPart, ContentOf(j, MasterPart)), fact, names, ContentOf(j, Master));
    FinishSteps(j, MasterCopied(j, w), fact, names);
    FinishSteps(j, MasterMade(j, w), fact, names);
    Starts(j, n - 1, w, UploadMaster(fact, names), Put(w, MasterPart, ContentOf(j, MasterPart)), CopyMaster(fact, names),
           MasterCopied(j, w), DeleteMasterPart(fact, names), MasterMade(j, w), TellDone(fact, names, true));
    GoesOn(j, w, UploadMaster(fact, names), n - 1, MasterMade(j, w), TellDone(fact, names, true),
           Hold(MasterMade(j, w), DoneMessage(j, names)), FlushDone(fact, names, true));
  }

  /** The last packager is at its last call, and nothing of the announcement is out. */
  ghost predicate AtLastFlush(j: Job, m: Machine) {
    && m.workers != [] && var last := |m.workers| - 1;
    && m.workers[last].FlushDone?
    && (forall k :: 0 <= k < last ==> !IsPackaging(m.workers[k]))
    && m.w.pending == multiset{} && AllPersisted(j, m.w.table) && !Told(j, m.w, true)
  }

  lemma WritePhase(j: Job, m: Machine)
    requires ValidJob(j) && MachineOk(j, m) && AboutToWrite(j, m)
    ensures exists m' :: Reaches(j, m, m') && AtLastFlush(j, m')
  {
    var others, pc := m.workers[..|m.workers| - 1], m.workers[|m.workers| - 1];
    UntoldWithoutMaster(j, m.w);
    assert m.workers == others + [pc];
    WriteRuns(j, m.w, others, pc, 4);
    WrittenFlush(j, m.w, others, FlushDone(pc.fact, pc.names, true));
  }

  function Written(j: Job, w: World): World {
    Hold(MasterMade(j, w), DoneMessage(j, InTextOrder(j.ladder)))
  }

  lemma WriteRuns(j: Job, w: World, others: seq<Pc>, pc: Pc, n: nat)
    requires pc.UploadMaster? && pc.names == InTextOrder(j.ladder) && n == 4
    ensures Reaches(j, Machine(w, others + [pc], false), Machine(Written(j, w), others + [FlushDone(pc.fact, pc.names, true)], false))
  {
    WritesAlone(j, w, pc.fact, n);
    WalkRuns(j, w, others, false, pc, n);
    AdvancesFaultless(|others|, n);
  }

  lemma WrittenFlush(j: Job, w: World, others: seq<Pc>, pc: Pc)
    requires AllPersisted(j, w.table) && w.pending == multiset{} && !Told(j, w, true) && pc.FlushDone?
    requires forall k :: 0 <= k < |others| ==> !IsPackaging(others[k])
    ensures AtLastFlush(j, Machine(Written(j, w), others + [pc], false))
  {
  }

  lemma FlushIsReached(j: Job, t: Table, now: int) returns (actions: seq<Action>, m: Machine)
    requires ValidJob(j) && Unstarted(j, t)
    ensures Faultless(actions) && m == Run(j, Begin(t, now), actions) && AtLastFlush(j, m) && MachineOk(j, m)
  {
    ClaimIsReached(j, t, now);
    var m1 :| Reaches(j, Begin(t, now), m1) && AboutToWrite(j, m1);
    var before :| Faultless(before) && Run(j, Begin(t, now), before) == m1;
    RunOk(j, t, now, before);
    WritePhase(j, m1);
    m :| Reaches(j, m1, m) && AtLastFlush(j, m);
    ReachesOn(j, Begin(t, now), m1, m);
    actions :| Faultless(actions) && Run(j, Begin(t, now), actions) == m;
    RunOk(j, t, now, actions);
  }

  /** For every video some run without fault ends with `video.completed` published. */
  lemma SomeRunCompletes(j: Job, t: Table, now: int) returns (actions: seq<Action>)
    requires ValidJob(j) && Unstarted(j, t)
    ensures Faultless(actions) && Told(j, Run(j, Begin(t, now), actions).w, true)
  {
    var before, m := FlushIsReached(j, t, now);
    var last := |m.workers| - 1;
    assert PcOk(j, m.w, m.workers[last]);
    DrainedTells(j, m, last);
    RunOne(j, m, Advance(last));
    RunConcat(j, Begin(t, now), before, [Advance(last)]);
    actions := before + [Advance(last)];
  }

  /** One flush that times out. For every video some run in which nobody raises and nobody is killed strands
      it: the hypothesis that flushes drain cannot be dropped. */
  lemma SomeShortFlushStrands(j: Job, t: Table, now: int) returns (actions: seq<Action>, last: nat)
    requires ValidJob(j) && Unstarted(j, t)
    ensures Faultless(actions) && Stranded(j, Run(j, Begin(t, now), actions + [FlushShort(last)]))
  {
    var m;
    actions, m := FlushIsReached(j, t, now);
    last := |m.workers| - 1;
    LastFlushDecides(j, m, last);
    RunOne(j, m, FlushShort(last));
    RunConcat(j, Begin(t, now), actions, [FlushShort(last)]);
  }
}
