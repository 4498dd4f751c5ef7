/** The fan-out and the join of one video: probe, transcode and package workers over one bucket, one database
    and at-least-once messages (backend/services/worker_probe/main.py, worker_transcode/main.py,
    worker_package/main.py). Every commit, head, upload, copy, delete and publish is a step of its own;
    any worker may raise or be killed between two steps, and any message may be delivered again. */
module Pipeline {
  import opened Text
  import opened Ladder
  import opened Sorting
  import opened Tables
  import opened Storage
  import Hls

  // ---------------------------------------------------------------------- the video

  /** One video: the ladder the probe finds in its source, and the segment names the muxer gives each
      rendition. ffmpeg is taken as a deterministic function of the source. `oneAtATime`: no two deliveries of
      one rendition's request overlap. */
  datatype Job = Job(owner: string, video: string, ladder: seq<Rendition>, segments: string -> seq<string>, oneAtATime: bool)

  datatype Content =
    | Encoded(rendition: string) | Chunk(rendition: string, name: string) | Listing(names: seq<string>) | Lines(text: string)

  datatype Message =
    | Planned(expected: seq<string>)
    | Requested(rendition: string)
    | Ready(rendition: string, playlist: string)
    | Packaged(master: string, renditions: seq<string>)

  /** The packager subscribes to two topics. */
  predicate ForPackager(m: Message) {
    m.Planned? || m.Ready?
  }

  /** A label is four or five ASCII characters: comparing text is comparing base-256 numbers. */
  function LexKey(r: Rendition): nat {
    Base256(if |r| < 5 then r + [0 as char] else r)
  }

  predicate AllRenditions(names: seq<string>) {
    forall i :: 0 <= i < |names| ==> IsRendition(names[i])
  }

  /** `sorted(playlists)`: the expected names in text order. */
  function InTextOrder(expected: seq<string>): seq<Rendition> {
    if AllRenditions(expected) then
      var renditions: seq<Rendition> := expected;
      SortBy(LexKey, renditions)
    else []
  }

  /** What every write to a key puts there, at any time and by any worker. */
  function ContentOf(j: Job, key: Key): Content {
    match key
    case Mp4(r) => Encoded(r)
    case Mp4Part(r) => Encoded(r)
    case Segment(r, name) => Chunk(r, name)
    case Playlist(r) => Listing(j.segments(r))
    case PlaylistPart(r) => Listing(j.segments(r))
    case Master => Lines(Hls.MasterText(InTextOrder(j.ladder)))
    case MasterPart => Lines(Hls.MasterText(InTextOrder(j.ladder)))
  }

  ghost predicate ValidJob(j: Job) {
    && IsLadder(j.ladder) && NoSlash(j.video)
    && (forall r, name :: r in j.ladder && name in j.segments(r) ==> IsSegmentName(name))
    && (forall r :: r in j.ladder ==> j.segments(r) != [])
  }

  // ------------------------------------------------------------------ shared state

  /** `held` was handed to a producer, `published` has reached the broker (what is held but not published is
      queued, or died with its process), `pending` are the packager's
      copies nobody has handled or is handling: undelivered, in a retry tier or in the DLQ. */
  datatype World = World(store: map<Key, Content>, table: Table, now: int, held: set<Message>, published: set<Message>,
                         pending: multiset<Message>, mp4Copies: multiset<string>)

  function Put(w: World, key: Key, content: Content): World {
    w.(store := w.store[key := content])
  }

  function Drop(w: World, key: Key): World {
    w.(store := w.store - {key})
  }

  function Hold(w: World, m: Message): World {
    w.(held := w.held + {m})
  }

  function Send(w: World, m: Message): World {
    w.(held := w.held + {m}, published := w.published + {m}, pending := if ForPackager(m) then w.pending + multiset{m} else w.pending)
  }

  function Write(w: World, op: Op): World {
    w.(table := Apply(w.table, op))
  }

  function ReadyMessage(j: Job, r: string): Message {
    Ready(r, KeyText(j.owner, j.video, Playlist(r)))
  }

  function DoneMessage(j: Job, names: seq<string>): Message {
    Packaged(KeyText(j.owner, j.video, Master), names)
  }

  /** What the two announcements carry. */
  lemma AnnouncementsCarry(j: Job, r: string, names: seq<string>)
    ensures ReadyMessage(j, r) == Ready(r, HlsPlaylistKey(j.owner, j.video, r))
    ensures DoneMessage(j, names) == Packaged(HlsMasterKey(j.owner, j.video), names)
  {
  }

  // ------------------------------------------------------------------------ workers

  /** Where a delivery is in its handler. */
  datatype Pc =
    | Probing(next: nat)
    | HeadMp4(rendition: string)
    | HeadPlaylist(rendition: string, mp4: bool)
    | ClaimRow(rendition: string)
    | UploadMp4(rendition: string)
    | CopyMp4(rendition: string)
    | DeleteMp4Part(rendition: string)
    | UploadSegment(rendition: string, next: nat)
    | UploadPlaylist(rendition: string)
    | CopyPlaylist(rendition: string)
    | DeletePlaylistPart(rendition: string)
    | TellReady(rendition: string)
    | FlushReady(rendition: string)
    | RecordFact(fact: Message)
    | ReadExpected(fact: Message)
    | ReadRows(fact: Message, expected: seq<string>)
    | CheckMaster(fact: Message, names: seq<Rendition>)
    | ClaimVideo(fact: Message, names: seq<Rendition>)
    | UploadMaster(fact: Message, names: seq<Rendition>)
    | CopyMaster(fact: Message, names: seq<Rendition>)
    | DeleteMasterPart(fact: Message, names: seq<Rendition>)
    | TellDone(fact: Message, names: seq<Rendition>, claimed: bool)
    | FlushDone(fact: Message, names: seq<Rendition>, claimed: bool)
    | ReleaseVideo(fact: Message)
    | Ended(ok: bool)

  predicate IsPackaging(pc: Pc) {
    || pc.RecordFact? || pc.ReadExpected? || pc.ReadRows? || pc.CheckMaster? || pc.ClaimVideo? || pc.UploadMaster?
    || pc.CopyMaster? || pc.DeleteMasterPart? || pc.TellDone? || pc.FlushDone? || pc.ReleaseVideo?
  }

  predicate IsTranscoding(pc: Pc) {
    || pc.HeadMp4? || pc.HeadPlaylist? || pc.ClaimRow? || pc.UploadMp4? || pc.CopyMp4? || pc.DeleteMp4Part?
    || pc.UploadSegment? || pc.UploadPlaylist? || pc.CopyPlaylist? || pc.DeletePlaylistPart? || pc.TellReady? || pc.FlushReady?
  }

  /** Inside the `try` whose handler releases the claim. */
  predicate InTry(pc: Pc) {
    || pc.UploadMaster? || pc.CopyMaster? || pc.DeleteMasterPart?
    || (pc.TellDone? && pc.claimed) || (pc.FlushDone? && pc.claimed)
  }

  predicate Holding(pc: Pc) {
    InTry(pc) || pc.ReleaseVideo?
  }

  /** What a raised exception leads to. */
  function Raised(pc: Pc): Pc {
    if InTry(pc) then ReleaseVideo(pc.fact) else Ended(false)
  }

  function ProbeMessage(j: Job, k: nat): Message
    requires k <= |j.ladder|
  {
    if k == 0 then Planned(j.ladder) else Requested(j.ladder[k - 1])
  }

  function SendFirst(j: Job, w: World, k: nat): World
    requires k <= |j.ladder| + 1
  {
    if k == 0 then w else Send(SendFirst(j, w, k - 1), ProbeMessage(j, k - 1))
  }

  /** One ladder: the plan first, then one request for each of its renditions, then the flush. */
  function ProbeStep(j: Job, w: World, k: nat): (World, Pc) {
    if k <= |j.ladder| then (Hold(w, ProbeMessage(j, k)), Probing(k + 1))
    else (SendFirst(j, w, |j.ladder| + 1), Ended(true))
  }

  function TranscodeStep(j: Job, w: World, pc: Pc): (World, Pc)
    requires IsTranscoding(pc)
  {
    var r := pc.rendition;
    match pc
    case HeadMp4(_) => (w, HeadPlaylist(r, Mp4(r) in w.store))
    case HeadPlaylist(_, mp4) =>
      (w, if !mp4 then ClaimRow(r) else if Playlist(r) in w.store then TellReady(r) else UploadSegment(r, 0))
    case ClaimRow(_) =>
      (Write(w, Op.ClaimRendition(j.owner, j.video, r, w.now)),
       if WinsRendition(w.table, j.video, r, w.now) then UploadMp4(r) else Ended(false))
    case UploadMp4(_) => (Put(w, Mp4Part(r), Encoded(r)), CopyMp4(r))
    case CopyMp4(_) =>
      if Mp4Part(r) !in w.store then (w, Raised(pc))
      else (Put(w, Mp4(r), w.store[Mp4Part(r)]).(mp4Copies := w.mp4Copies + multiset{r}), DeleteMp4Part(r))
    case DeleteMp4Part(_) => (Drop(w, Mp4Part(r)), UploadSegment(r, 0))
    case UploadSegment(_, k) =>
      if k < |j.segments(r)| then (Put(w, Segment(r, j.segments(r)[k]), Chunk(r, j.segments(r)[k])), UploadSegment(r, k + 1))
      else (w, UploadPlaylist(r))
    case UploadPlaylist(_) => (Put(w, PlaylistPart(r), Listing(j.segments(r))), CopyPlaylist(r))
    case CopyPlaylist(_) =>
      if PlaylistPart(r) !in w.store then (w, Raised(pc))
      else (Put(w, Playlist(r), w.store[PlaylistPart(r)]), DeletePlaylistPart(r))
    case DeletePlaylistPart(_) => (Drop(w, PlaylistPart(r)), TellReady(r))
    case TellReady(_) => (Hold(w, ReadyMessage(j, r)), FlushReady(r))
    case FlushReady(_) => (Send(w, ReadyMessage(j, r)), Ended(true))
  }

  function RecordStep(j: Job, w: World, fact: Message): (World, Pc) {
    match fact
    case Planned(expected) => (Write(w, Op.RecordExpected(j.video, expected)), ReadExpected(fact))
    case Ready(r, key) =>
      (Write(w, Op.RecordPlaylist(j.video, r, key)), if HasRendition(w.table, j.video, r) then ReadExpected(fact) else Raised(RecordFact(fact)))
    case _ => (w, Raised(RecordFact(fact)))
  }

  function PackageStep(j: Job, w: World, pc: Pc): (World, Pc)
    requires IsPackaging(pc)
  {
    var fact := pc.fact;
    match pc
    case RecordFact(_) => RecordStep(j, w, fact)
    case ReadExpected(_) =>
      (w, if ExpectedOf(w.table, j.video) == [] then Ended(true) else ReadRows(fact, ExpectedOf(w.table, j.video)))
    case ReadRows(_, expected) =>
      (w, if forall r :: r in expected ==> HasPlaylist(w.table, j.video, r) then CheckMaster(fact, InTextOrder(expected)) else Ended(true))
    case CheckMaster(_, names) => (w, if Master in w.store then TellDone(fact, names, false) else ClaimVideo(fact, names))
    case ClaimVideo(_, names) =>
      (Write(w, Op.ClaimPackaging(j.video, w.now)), if WinsPackaging(w.table, j.video, w.now) then UploadMaster(fact, names) else Ended(true))
    case UploadMaster(_, names) => (Put(w, MasterPart, Lines(Hls.MasterText(names))), CopyMaster(fact, names))
    case CopyMaster(_, names) =>
      if MasterPart !in w.store then (w, Raised(pc)) else (Put(w, Master, w.store[MasterPart]), DeleteMasterPart(fact, names))
    case DeleteMasterPart(_, names) => (Drop(w, MasterPart), TellDone(fact, names, true))
    case TellDone(_, names, claimed) => (Hold(w, DoneMessage(j, names)), FlushDone(fact, names, claimed))
    case FlushDone(_, names, _) => (Send(w, DoneMessage(j, names)), Ended(true))
    case ReleaseVideo(_) => (Write(w, Op.ReleaseClaim(j.video)), Ended(false))
  }

  function Step(j: Job, w: World, pc: Pc): (World, Pc) {
    if pc.Probing? then ProbeStep(j, w, pc.next)
    else if IsTranscoding(pc) then TranscodeStep(j, w, pc)
    else if IsPackaging(pc) then PackageStep(j, w, pc)
    else (w, pc)
  }

  // ------------------------------------------------------------------------ the runs

  /** `orphaned`: a worker that held the packaging claim was killed, or failed to release it, before the
      master was written. */
  datatype Machine = Machine(w: World, workers: seq<Pc>, orphaned: bool)

  datatype Action =
    | StartProbe
    | StartTranscode(rendition: string)
    | StartPackage(fact: Message, again: bool)
    | Advance(worker: nat)
    | Raise(worker: nat)
    | Kill(worker: nat)
    | FlushShort(worker: nat)
    | Deliver(message: Message)
    | Tick(elapsed: nat)
    | Elsewhere(op: Op)

  /** A packager delivery that did not succeed leaves its message to be delivered again. */
  function Returned(w: World, pc: Pc, pc': Pc): World {
    if IsPackaging(pc) && pc' == Ended(false) then w.(pending := w.pending + multiset{pc.fact}) else w
  }

  function Moved(m: Machine, i: nat, w: World, pc': Pc): Machine
    requires i < |m.workers|
  {
    Machine(Returned(w, m.workers[i], pc'), m.workers[i := pc'], m.orphaned)
  }

  /** A handler's last call, `producer.flush()`. */
  predicate AtFlush(j: Job, pc: Pc) {
    pc.FlushReady? || pc.FlushDone? || (pc.Probing? && pc.next > |j.ladder|)
  }

  predicate Busy(workers: seq<Pc>, r: string) {
    exists i :: 0 <= i < |workers| && IsTranscoding(workers[i]) && workers[i].rendition == r
  }

  /** Any other statement: the projector's, or one about another video. */
  predicate Foreign(j: Job, op: Op) {
    op.Project? || op.video != j.video
  }

  function Acted(j: Job, m: Machine, a: Action): Machine {
    match a
    case StartProbe => m.(workers := m.workers + [Probing(0)])
    case StartTranscode(r) =>
      if Requested(r) in m.w.published && !(j.oneAtATime && Busy(m.workers, r)) then m.(workers := m.workers + [HeadMp4(r)]) else m
    case StartPackage(fact, again) =>
      if !ForPackager(fact) || fact !in m.w.published then m
      else if again then m.(workers := m.workers + [RecordFact(fact)])
      else if m.w.pending[fact] == 0 then m
      else m.(workers := m.workers + [RecordFact(fact)], w := m.w.(pending := m.w.pending - multiset{fact}))
    case Advance(i) =>
      if i < |m.workers| then var (w, pc) := Step(j, m.w, m.workers[i]); Moved(m, i, w, pc) else m
    case Raise(i) =>
      if i < |m.workers| && !m.workers[i].Ended?
      then Moved(m, i, m.w, Raised(m.workers[i])).(orphaned := m.orphaned || (m.workers[i].ReleaseVideo? && Master !in m.w.store))
      else m
    case Kill(i) =>
      if i < |m.workers| && !m.workers[i].Ended?
      then Moved(m, i, m.w, Ended(false)).(orphaned := m.orphaned || (Holding(m.workers[i]) && Master !in m.w.store))
      else m
    // The flush times out; its count is discarded, and the handler returns. `Deliver` is what the queue
    // delivered before, and what it delivers later if its process lives.
    case FlushShort(i) => if i < |m.workers| && AtFlush(j, m.workers[i]) then Moved(m, i, m.w, Ended(true)) else m
    case Deliver(message) => if message in m.w.held then m.(w := Send(m.w, message)) else m
    case Tick(elapsed) => m.(w := m.w.(now := m.w.now + elapsed))
    case Elsewhere(op) => if Foreign(j, op) then m.(w := Write(m.w, op)) else m
  }

  /** Nothing of this video is in the bucket or on a topic yet; the API has made its row. */
  ghost predicate Fresh(j: Job, t: Table) {
    && HasVideo(t, j.video) && ExpectedOf(t, j.video) == [] && V(j.video, PackagingClaimedAt) !in t
    && forall r :: !HasPlaylist(t, j.video, r)
  }

  function Begin(t: Table, now: int): Machine {
    Machine(World(map[], t, now, {}, {}, multiset{}, multiset{}), [], false)
  }

  function Run(j: Job, m: Machine, actions: seq<Action>): Machine {
    if actions == [] then m else Acted(j, Run(j, m, actions[..|actions| - 1]), actions[|actions| - 1])
  }

  lemma {:induction false} RunConcat(j: Job, m: Machine, a: seq<Action>, b: seq<Action>)
    ensures Run(j, m, a + b) == Run(j, Run(j, m, a), b)
  {
    if b == [] {
      assert a + b == a;
    } else {
      RunConcat(j, m, a, b[..|b| - 1]);
      assert (a + b)[..|a + b| - 1] == a + b[..|b| - 1];
    }
  }

  lemma RunTwo(j: Job, m: Machine, a: Action, b: Action)
    ensures Run(j, m, [a, b]) == Acted(j, Acted(j, m, a), b)
  {
    RunOne(j, m, a);
    RunConcat(j, m, [a], [b]);
    RunOne(j, Acted(j, m, a), b);
    assert [a, b] == [a] + [b];
  }

  lemma RunOne(j: Job, m: Machine, a: Action)
    ensures Run(j, m, [a]) == Acted(j, m, a)
  {
    assert Run(j, m, [a][..0]) == m;
  }

  /** One worker left to itself for `n` steps. */
  function Walk(j: Job, w: World, pc: Pc, n: nat): (World, Pc) {
    if n == 0 then (w, pc) else var (w', pc') := Walk(j, w, pc, n - 1); Step(j, w', pc')
  }

  function Advances(i: nat, n: nat): seq<Action> {
    if n == 0 then [] else Advances(i, n - 1) + [Advance(i)]
  }

  lemma AdvanceLast(j: Job, w: World, others: seq<Pc>, orphaned: bool, pc: Pc)
    requires Step(j, w, pc).1 != Ended(false)
    ensures Acted(j, Machine(w, others + [pc], orphaned), Advance(|others|))
            == Machine(Step(j, w, pc).0, others + [Step(j, w, pc).1], orphaned)
  {
    assert (others + [pc])[|others| := Step(j, w, pc).1] == others + [Step(j, w, pc).1];
  }

  /** The newest worker walking while the others stand still is a run. */
  lemma {:induction false} WalkRuns(j: Job, w: World, others: seq<Pc>, orphaned: bool, pc: Pc, n: nat)
    requires forall k :: 0 < k <= n ==> Walk(j, w, pc, k).1 != Ended(false)
    ensures Run(j, Machine(w, others + [pc], orphaned), Advances(|others|, n))
            == Machine(Walk(j, w, pc, n).0, others + [Walk(j, w, pc, n).1], orphaned)
  {
    if n > 0 {
      WalkRuns(j, w, others, orphaned, pc, n - 1);
      var (w', pc') := Walk(j, w, pc, n - 1);
      assert Walk(j, w, pc, n).1 != Ended(false);
      AdvanceLast(j, w', others, orphaned, pc');
      var actions := Advances(|others|, n);
      assert actions[..|actions| - 1] == Advances(|others|, n - 1);
    }
  }

  // -------------------------------------------------------------------- sorted names

  function PaddedLabel(r: Rendition): string {
    if |r| < 5 then r + [0 as char] else r
  }

  lemma LabelBytes(r: Rendition)
    ensures Bytes(r) && Bytes(PaddedLabel(r)) && |PaddedLabel(r)| == 5 && r[|r| - 1] != 0 as char
  {
    assert forall i :: 0 <= i < |r| - 1 ==> r[i] == r[..|r| - 1][i];
  }

  /** The key a label sorts by compares as the label does. */
  lemma LexKeyIsTextOrder(a: Rendition, b: Rendition)
    ensures LexKey(a) <= LexKey(b) <==> TextLeq(a, b)
  {
    LabelBytes(a);
    LabelBytes(b);
    NumbersOrderText(PaddedLabel(a), PaddedLabel(b));
    if |a| < |b| {
      PadLeft(a, b);
    } else if |b| < |a| {
      PadRight(a, b);
    } else if |a| == 4 {
      NumbersOrderText(a, b);
      assert PaddedLabel(a)[..4] == a && PaddedLabel(b)[..4] == b;
    }
  }

  /** `sorted` by text: an ascending permutation. */
  lemma NamesSorted(names: seq<Rendition>)
    ensures multiset(InTextOrder(names)) == multiset(names)
    ensures forall i, k :: 0 <= i < k < |InTextOrder(names)| ==> TextLeq(InTextOrder(names)[i], InTextOrder(names)[k])
  {
    SortBySorts(LexKey, names);
    var sorted := InTextOrder(names);
    forall i, k | 0 <= i < k < |sorted|
      ensures TextLeq(sorted[i], sorted[k])
    {
      LexKeyIsTextOrder(sorted[i], sorted[k]);
    }
  }
}
