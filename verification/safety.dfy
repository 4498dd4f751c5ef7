/** What every run of the fan-out and the join keeps true: a finished rendition is whole, a published
    `video.completed` names a playable video, and each key is only ever written with one content. */
module Safety {
  import opened Text
  import opened Ladder
  import opened Sorting
  import opened Tables
  import opened Storage
  import opened Pipeline
  import Hls

  // ------------------------------------------------------------------ the invariant

  /** A rendition's MP4 and every segment its playlist lists are there. */
  ghost predicate Whole(j: Job, store: map<Key, Content>, r: string) {
    && r in j.ladder && Mp4(r) in store
    && forall name :: name in j.segments(r) ==> Segment(r, name) in store
  }

  ghost predicate StoreOk(j: Job, store: map<Key, Content>, t: Table) {
    && (forall key :: key in store ==> store[key] == ContentOf(j, key))
    && (forall r :: Playlist(r) in store ==> Whole(j, store, r))
    && (forall r :: Mp4(r) in store ==> HasRendition(t, j.video, r))
  }

  ghost predicate AllRecorded(j: Job, t: Table) {
    forall r :: r in j.ladder ==> HasPlaylist(t, j.video, r)
  }

  ghost predicate RowsOk(j: Job, store: map<Key, Content>, t: Table) {
    && HasVideo(t, j.video)
    && (ExpectedOf(t, j.video) == [] || ExpectedOf(t, j.video) == j.ladder)
    && (forall r :: HasPlaylist(t, j.video, r) ==> Playlist(r) in store)
    && (Master in store ==> AllRecorded(j, t))
  }

  ghost predicate MessageOk(j: Job, store: map<Key, Content>, m: Message) {
    match m
    case Planned(expected) => expected == j.ladder
    case Requested(r) => r in j.ladder
    case Ready(r, _) => m == ReadyMessage(j, r) && Playlist(r) in store
    case Packaged(_, names) => m == DoneMessage(j, InTextOrder(j.ladder)) && Master in store
  }

  ghost predicate MessagesOk(j: Job, w: World) {
    && (forall m :: m in w.held ==> MessageOk(j, w.store, m))
    && w.published <= w.held
    && (forall m :: m in w.pending ==> m in w.held && ForPackager(m))
  }

  ghost predicate WorldOk(j: Job, w: World) {
    StoreOk(j, w.store, w.table) && RowsOk(j, w.store, w.table) && MessagesOk(j, w)
  }

  ghost predicate SegmentsUpTo(j: Job, store: map<Key, Content>, r: string, k: nat) {
    Mp4(r) in store && k <= |j.segments(r)| && forall i :: 0 <= i < k ==> Segment(r, j.segments(r)[i]) in store
  }

  ghost predicate TranscodeOk(j: Job, w: World, pc: Pc)
    requires IsTranscoding(pc)
  {
    var r := pc.rendition;
    && r in j.ladder
    && match pc
       case HeadMp4(_) => true
       case HeadPlaylist(_, mp4) => mp4 ==> Mp4(r) in w.store
       case ClaimRow(_) => true
       case UploadMp4(_) => HasRendition(w.table, j.video, r)
       case CopyMp4(_) => HasRendition(w.table, j.video, r)
       case DeleteMp4Part(_) => Mp4(r) in w.store
       case UploadSegment(_, k) => SegmentsUpTo(j, w.store, r, k)
       case UploadPlaylist(_) => SegmentsUpTo(j, w.store, r, |j.segments(r)|)
       case CopyPlaylist(_) => SegmentsUpTo(j, w.store, r, |j.segments(r)|)
       case DeletePlaylistPart(_) => Playlist(r) in w.store
       case TellReady(_) => Playlist(r) in w.store
       case FlushReady(_) => Playlist(r) in w.store
  }

  ghost predicate PackageOk(j: Job, w: World, pc: Pc)
    requires IsPackaging(pc)
  {
    && pc.fact in w.held && ForPackager(pc.fact)
    && match pc
       case RecordFact(_) => true
       case ReadExpected(_) => true
       case ReadRows(_, expected) => expected == j.ladder
       case CheckMaster(_, names) => names == InTextOrder(j.ladder) && AllRecorded(j, w.table)
       case ClaimVideo(_, names) => names == InTextOrder(j.ladder) && AllRecorded(j, w.table)
       case UploadMaster(_, names) => names == InTextOrder(j.ladder) && AllRecorded(j, w.table)
       case CopyMaster(_, names) => names == InTextOrder(j.ladder) && AllRecorded(j, w.table)
       case DeleteMasterPart(_, names) => names == InTextOrder(j.ladder) && Master in w.store
       case TellDone(_, names, _) => names == InTextOrder(j.ladder) && Master in w.store
       case FlushDone(_, names, _) => names == InTextOrder(j.ladder) && Master in w.store && DoneMessage(j, names) in w.held
       case ReleaseVideo(_) => true
  }

  ghost predicate PcOk(j: Job, w: World, pc: Pc) {
    && (IsTranscoding(pc) ==> TranscodeOk(j, w, pc))
    && (IsPackaging(pc) ==> PackageOk(j, w, pc))
  }

  // --------------------------------------------------------------- what only grows

  ghost predicate StoreGrows(a: map<Key, Content>, b: map<Key, Content>) {
    forall key :: key in a && !IsScratch(key) ==> key in b
  }

  ghost predicate TableGrows(t: Table, t': Table, v: string) {
    && (HasVideo(t, v) ==> HasVideo(t', v))
    && (forall r :: HasRendition(t, v, r) ==> HasRendition(t', v, r))
    && (forall r :: HasPlaylist(t, v, r) ==> HasPlaylist(t', v, r))
  }

  ghost predicate Grows(j: Job, w: World, w': World) {
    StoreGrows(w.store, w'.store) && TableGrows(w.table, w'.table, j.video) && w.held <= w'.held
  }

  lemma PcStays(j: Job, w: World, w': World, pc: Pc)
    requires PcOk(j, w, pc) && Grows(j, w, w')
    ensures PcOk(j, w', pc)
  {
  }

  // ------------------------------------------------------------ effects, one by one

  /** When a key may be written. */
  ghost predicate MayPut(j: Job, w: World, key: Key) {
    match key
    case Mp4(r) => HasRendition(w.table, j.video, r)
    case Playlist(r) => Whole(j, w.store, r)
    case Master => AllRecorded(j, w.table)
    case _ => true
  }

  lemma MessageStays(j: Job, store: map<Key, Content>, store': map<Key, Content>, m: Message)
    requires MessageOk(j, store, m) && StoreGrows(store, store')
    ensures MessageOk(j, store', m)
  {
  }

  lemma MessagesStay(j: Job, w: World, w': World)
    requires MessagesOk(j, w) && StoreGrows(w.store, w'.store)
    requires w'.held == w.held && w'.published == w.published && w'.pending == w.pending
    ensures MessagesOk(j, w')
  {
    forall m | m in w'.held
      ensures MessageOk(j, w'.store, m)
    {
      MessageStays(j, w.store, w'.store, m);
    }
  }

  lemma PutOk(j: Job, w: World, w': World, key: Key)
    requires WorldOk(j, w) && MayPut(j, w, key)
    requires w' == Put(w, key, ContentOf(j, key)).(mp4Copies := w'.mp4Copies)
    ensures WorldOk(j, w') && Grows(j, w, w')
  {
    MessagesStay(j, w, w');
    PutStoreOk(j, w, w'.store, key);
  }

  lemma PutStoreOk(j: Job, w: World, store: map<Key, Content>, key: Key)
    requires StoreOk(j, w.store, w.table) && MayPut(j, w, key) && store == w.store[key := ContentOf(j, key)]
    ensures StoreOk(j, store, w.table)
  {
    forall r | Playlist(r) in store
      ensures Whole(j, store, r)
    {
      assert Whole(j, w.store, r);
    }
  }

  lemma DropOk(j: Job, w: World, key: Key)
    requires WorldOk(j, w) && IsScratch(key)
    ensures WorldOk(j, Drop(w, key)) && Grows(j, w, Drop(w, key))
  {
    MessagesStay(j, w, Drop(w, key));
    var store := Drop(w, key).store;
    forall r | Playlist(r) in store
      ensures Whole(j, store, r)
    {
      assert Whole(j, w.store, r);
    }
  }

  lemma HoldOk(j: Job, w: World, m: Message)
    requires WorldOk(j, w) && MessageOk(j, w.store, m)
    ensures WorldOk(j, Hold(w, m)) && Grows(j, w, Hold(w, m))
  {
  }

  lemma SendOk(j: Job, w: World, m: Message)
    requires WorldOk(j, w) && MessageOk(j, w.store, m)
    ensures WorldOk(j, Send(w, m)) && Grows(j, w, Send(w, m))
  {
  }

  // Statements.

  /** How a statement changes what the join reads about one video. */
  lemma OpEffect(t: Table, op: Op, v: string)
    ensures HasVideo(Apply(t, op), v) == HasVideo(t, v)
    ensures ExpectedOf(Apply(t, op), v) == if op.RecordExpected? && op.video == v && HasVideo(t, v) then op.names else ExpectedOf(t, v)
    ensures forall r :: HasRendition(t, v, r) ==> HasRendition(Apply(t, op), v, r)
  {
    RowsStay(t, op);
    if !IsPackager(op) {
      OthersIgnorePackager(t, op, V(v, PackagerExpected), Present);
    }
  }

  lemma PlaylistEffect(t: Table, op: Op, v: string, r: string)
    ensures HasPlaylist(Apply(t, op), v, r)
            <==> HasPlaylist(t, v, r) || (op.RecordPlaylist? && op.video == v && op.rendition == r && HasRendition(t, v, r))
  {
    if !IsPackager(op) {
      OthersIgnorePackager(t, op, R(v, r, PackagerPlaylistKey), Present);
    }
  }

  /** The statements a worker runs on this video, and everyone else's. */
  ghost predicate MayWrite(j: Job, w: World, op: Op) {
    && (op.RecordExpected? && op.video == j.video ==> op.names == j.ladder)
    && (op.RecordPlaylist? && op.video == j.video ==> Playlist(op.rendition) in w.store)
  }

  lemma WriteOk(j: Job, w: World, op: Op)
    requires WorldOk(j, w) && MayWrite(j, w, op)
    ensures WorldOk(j, Write(w, op)) && Grows(j, w, Write(w, op))
  {
    WriteRowsOk(j, w.store, w.table, op, Apply(w.table, op));
    MessagesStay(j, w, Write(w, op));
  }

  lemma WriteRowsOk(j: Job, store: map<Key, Content>, t: Table, op: Op, t': Table)
    requires StoreOk(j, store, t) && RowsOk(j, store, t) && t' == Apply(t, op)
    requires op.RecordExpected? && op.video == j.video ==> op.names == j.ladder
    requires op.RecordPlaylist? && op.video == j.video ==> Playlist(op.rendition) in store
    ensures StoreOk(j, store, t') && RowsOk(j, store, t') && TableGrows(t, t', j.video)
  {
    OpEffect(t, op, j.video);
    forall r
      ensures HasPlaylist(t', j.video, r) ==> Playlist(r) in store
      ensures HasPlaylist(t, j.video, r) ==> HasPlaylist(t', j.video, r)
    {
      PlaylistEffect(t, op, j.video, r);
    }
  }

  lemma ClaimMakesRow(t: Table, owner: string, v: string, r: string, now: int)
    ensures HasRendition(Apply(t, Op.ClaimRendition(owner, v, r, now)), v, r)
  {
  }

  // ---------------------------------------------------------------------- the steps

  lemma InOrderOfLadder(j: Job)
    ensures multiset(InTextOrder(j.ladder)) == multiset(j.ladder)
  {
    SortBySorts(LexKey, j.ladder);
  }

  ghost predicate Kept(j: Job, w: World, w': World) {
    WorldOk(j, w') && Grows(j, w, w')
  }

  lemma SegmentsNext(j: Job, w: World, pc: Pc)
    requires pc.DeleteMp4Part? || pc.UploadSegment? || pc.UploadPlaylist?
    requires TranscodeOk(j, w, pc)
    ensures var (w', pc') := TranscodeStep(j, w, pc); PcOk(j, w', pc')
  {
  }

  lemma LookNext(j: Job, w: World, pc: Pc)
    requires pc.HeadMp4? || pc.HeadPlaylist? || pc.ClaimRow?
    requires TranscodeOk(j, w, pc)
    ensures var (w', pc') := TranscodeStep(j, w, pc); PcOk(j, w', pc')
  {
    if pc.ClaimRow? {
      ClaimMakesRow(w.table, j.owner, j.video, pc.rendition, w.now);
    }
  }

  /** Where a transcode goes next holds there. */
  lemma TranscodeNext(j: Job, w: World, pc: Pc)
    requires IsTranscoding(pc) && TranscodeOk(j, w, pc)
    ensures var (w', pc') := TranscodeStep(j, w, pc); PcOk(j, w', pc')
  {
    if pc.HeadMp4? || pc.HeadPlaylist? || pc.ClaimRow? {
      LookNext(j, w, pc);
    } else if pc.DeleteMp4Part? || pc.UploadSegment? || pc.UploadPlaylist? {
      SegmentsNext(j, w, pc);
    }
  }

  lemma Mp4StepOk(j: Job, w: World, pc: Pc)
    requires WorldOk(j, w) && IsTranscoding(pc) && TranscodeOk(j, w, pc)
    requires pc.UploadMp4? || pc.CopyMp4? || pc.DeleteMp4Part?
    ensures Kept(j, w, TranscodeStep(j, w, pc).0)
  {
    var r := pc.rendition;
    if pc.UploadMp4? {
      PutOk(j, w, Put(w, Mp4Part(r), Encoded(r)), Mp4Part(r));
    } else if pc.DeleteMp4Part? {
      DropOk(j, w, Mp4Part(r));
    } else if Mp4Part(r) in w.store {
      PutOk(j, w, Put(w, Mp4(r), w.store[Mp4Part(r)]).(mp4Copies := w.mp4Copies + multiset{r}), Mp4(r));
    }
  }

  lemma SegmentStepOk(j: Job, w: World, pc: Pc)
    requires WorldOk(j, w) && IsTranscoding(pc) && TranscodeOk(j, w, pc)
    requires pc.UploadSegment? || pc.UploadPlaylist?
    ensures Kept(j, w, TranscodeStep(j, w, pc).0)
  {
    var r := pc.rendition;
    if pc.UploadPlaylist? {
      PutOk(j, w, Put(w, PlaylistPart(r), Listing(j.segments(r))), PlaylistPart(r));
    } else if pc.next < |j.segments(r)| {
      var key := Segment(r, j.segments(r)[pc.next]);
      PutOk(j, w, Put(w, key, Chunk(r, key.name)), key);
    }
  }

  lemma WholeAtLast(j: Job, store: map<Key, Content>, r: string)
    requires r in j.ladder && SegmentsUpTo(j, store, r, |j.segments(r)|)
    ensures Whole(j, store, r)
  {
    forall name | name in j.segments(r)
      ensures Segment(r, name) in store
    {
      var i :| 0 <= i < |j.segments(r)| && j.segments(r)[i] == name;
    }
  }

  lemma PlaylistStepOk(j: Job, w: World, pc: Pc)
    requires WorldOk(j, w) && IsTranscoding(pc) && TranscodeOk(j, w, pc)
    requires pc.CopyPlaylist? || pc.DeletePlaylistPart?
    ensures Kept(j, w, TranscodeStep(j, w, pc).0)
  {
    var r := pc.rendition;
    if pc.DeletePlaylistPart? {
      DropOk(j, w, PlaylistPart(r));
    } else if PlaylistPart(r) in w.store {
      WholeAtLast(j, w.store, r);
      PutOk(j, w, Put(w, Playlist(r), w.store[PlaylistPart(r)]), Playlist(r));
    }
  }

  lemma TranscodeStepOk(j: Job, w: World, pc: Pc)
    requires WorldOk(j, w) && IsTranscoding(pc) && TranscodeOk(j, w, pc)
    ensures Kept(j, w, TranscodeStep(j, w, pc).0)
  {
    if pc.ClaimRow? {
      WriteOk(j, w, Op.ClaimRendition(j.owner, j.video, pc.rendition, w.now));
    } else if pc.UploadMp4? || pc.CopyMp4? || pc.DeleteMp4Part? {
      Mp4StepOk(j, w, pc);
    } else if pc.UploadSegment? || pc.UploadPlaylist? {
      SegmentStepOk(j, w, pc);
    } else if pc.CopyPlaylist? || pc.DeletePlaylistPart? {
      PlaylistStepOk(j, w, pc);
    } else if pc.TellReady? {
      HoldOk(j, w, ReadyMessage(j, pc.rendition));
    } else if pc.FlushReady? {
      SendOk(j, w, ReadyMessage(j, pc.rendition));
    }
  }

  lemma PackageNext(j: Job, w: World, pc: Pc)
    requires IsPackaging(pc) && PackageOk(j, w, pc) && (ExpectedOf(w.table, j.video) == [] || ExpectedOf(w.table, j.video) == j.ladder)
    ensures var (w', pc') := PackageStep(j, w, pc); PcOk(j, w', pc')
  {
    if pc.ClaimVideo? {
      ClaimKeepsPlaylists(w.table, j.video, w.now);
    }
  }

  lemma ClaimKeepsPlaylists(t: Table, v: string, now: int)
    ensures forall r :: HasPlaylist(t, v, r) ==> HasPlaylist(Apply(t, Op.ClaimPackaging(v, now)), v, r)
  {
  }

  lemma RecordStepOk(j: Job, w: World, fact: Message)
    requires WorldOk(j, w) && fact in w.held && ForPackager(fact)
    ensures Kept(j, w, RecordStep(j, w, fact).0)
  {
    assert MessageOk(j, w.store, fact);
    match fact
    case Planned(expected) => WriteOk(j, w, Op.RecordExpected(j.video, expected));
    case Ready(r, key) => WriteOk(j, w, Op.RecordPlaylist(j.video, r, key));
    case _ =>
  }

  lemma MasterStepOk(j: Job, w: World, pc: Pc)
    requires WorldOk(j, w) && IsPackaging(pc) && PackageOk(j, w, pc)
    requires pc.UploadMaster? || pc.CopyMaster? || pc.DeleteMasterPart?
    ensures Kept(j, w, PackageStep(j, w, pc).0)
  {
    if pc.UploadMaster? {
      PutOk(j, w, Put(w, MasterPart, Lines(Hls.MasterText(pc.names))), MasterPart);
    } else if pc.DeleteMasterPart? {
      DropOk(j, w, MasterPart);
    } else {
      CopyMasterOk(j, w, pc);
    }
  }

  lemma CopyMasterOk(j: Job, w: World, pc: Pc)
    requires WorldOk(j, w) && pc.CopyMaster? && PackageOk(j, w, pc)
    ensures Kept(j, w, PackageStep(j, w, pc).0)
  {
    if MasterPart in w.store {
      PutOk(j, w, Put(w, Master, w.store[MasterPart]), Master);
    }
  }

  lemma PackageStepOk(j: Job, w: World, pc: Pc)
    requires WorldOk(j, w) && IsPackaging(pc) && PackageOk(j, w, pc)
    ensures Kept(j, w, PackageStep(j, w, pc).0)
  {
    if pc.RecordFact? {
      RecordStepOk(j, w, pc.fact);
    } else if pc.ClaimVideo? {
      WriteOk(j, w, Op.ClaimPackaging(j.video, w.now));
    } else if pc.ReleaseVideo? {
      WriteOk(j, w, Op.ReleaseClaim(j.video));
    } else if pc.UploadMaster? || pc.CopyMaster? || pc.DeleteMasterPart? {
      MasterStepOk(j, w, pc);
    } else if pc.TellDone? {
      HoldOk(j, w, DoneMessage(j, pc.names));
    } else if pc.FlushDone? {
      SendOk(j, w, DoneMessage(j, pc.names));
    }
  }

  lemma {:induction false} SendFirstOk(j: Job, w: World, k: nat)
    requires WorldOk(j, w) && k <= |j.ladder| + 1
    ensures WorldOk(j, SendFirst(j, w, k)) && Grows(j, w, SendFirst(j, w, k))
  {
    if k > 0 {
      SendFirstOk(j, w, k - 1);
      OneMoreSent(j, w, SendFirst(j, w, k - 1), ProbeMessage(j, k - 1));
    }
  }

  lemma OneMoreSent(j: Job, w: World, w1: World, m: Message)
    requires WorldOk(j, w1) && Grows(j, w, w1) && MessageOk(j, w1.store, m)
    ensures WorldOk(j, Send(w1, m)) && Grows(j, w, Send(w1, m))
  {
    SendOk(j, w1, m);
  }

  lemma ProbeStepOk(j: Job, w: World, k: nat)
    requires WorldOk(j, w)
    ensures Kept(j, w, ProbeStep(j, w, k).0)
  {
    if k <= |j.ladder| {
      HoldOk(j, w, ProbeMessage(j, k));
    } else {
      SendFirstOk(j, w, |j.ladder| + 1);
    }
  }

  lemma StepOk(j: Job, w: World, pc: Pc)
    requires WorldOk(j, w) && PcOk(j, w, pc)
    ensures Kept(j, w, Step(j, w, pc).0)
  {
    if pc.Probing? {
      ProbeStepOk(j, w, pc.next);
    } else if IsTranscoding(pc) {
      TranscodeStepOk(j, w, pc);
    } else if IsPackaging(pc) {
      PackageStepOk(j, w, pc);
    }
  }

  lemma StepNext(j: Job, w: World, pc: Pc)
    requires PcOk(j, w, pc) && (ExpectedOf(w.table, j.video) == [] || ExpectedOf(w.table, j.video) == j.ladder)
    ensures PcOk(j, Step(j, w, pc).0, Step(j, w, pc).1)
  {
    if IsTranscoding(pc) {
      TranscodeNext(j, w, pc);
    } else if IsPackaging(pc) {
      PackageNext(j, w, pc);
    }
  }

  // ------------------------------------------------------------------------- the runs

  ghost predicate MachineOk(j: Job, m: Machine) {
    WorldOk(j, m.w) && forall i :: 0 <= i < |m.workers| ==> PcOk(j, m.w, m.workers[i])
  }

  lemma OthersStay(j: Job, m: Machine, m': Machine)
    requires MachineOk(j, m) && Grows(j, m.w, m'.w) && WorldOk(j, m'.w) && |m'.workers| >= |m.workers|
    requires forall i :: 0 <= i < |m'.workers| && (i < |m.workers| ==> m'.workers[i] != m.workers[i]) ==> PcOk(j, m'.w, m'.workers[i])
    ensures MachineOk(j, m')
  {
    forall i | 0 <= i < |m'.workers|
      ensures PcOk(j, m'.w, m'.workers[i])
    {
      if i < |m.workers| && m'.workers[i] == m.workers[i] {
        PcStays(j, m.w, m'.w, m.workers[i]);
      }
    }
  }

  lemma ReturnedOk(j: Job, w: World, pc: Pc, pc': Pc, held: set<Message>)
    requires WorldOk(j, w) && (IsPackaging(pc) ==> pc.fact in w.held && ForPackager(pc.fact))
    ensures WorldOk(j, Returned(w, pc, pc')) && Grows(j, w, Returned(w, pc, pc'))
  {
  }

  lemma MovedOk(j: Job, m: Machine, i: nat, w: World, pc: Pc)
    requires MachineOk(j, m) && i < |m.workers| && WorldOk(j, w) && Grows(j, m.w, w) && PcOk(j, w, pc)
    ensures MachineOk(j, Moved(m, i, w, pc))
  {
    assert PcOk(j, m.w, m.workers[i]);
    ReturnedOk(j, w, m.workers[i], pc, w.held);
    PcStays(j, w, Returned(w, m.workers[i], pc), pc);
    OthersStay(j, m, Moved(m, i, w, pc));
  }

  lemma WorkerOk(j: Job, m: Machine, i: nat)
    requires MachineOk(j, m) && i < |m.workers|
    ensures var (w, pc) := Step(j, m.w, m.workers[i]); MachineOk(j, Moved(m, i, w, pc))
  {
    StepOk(j, m.w, m.workers[i]);
    StepNext(j, m.w, m.workers[i]);
    MovedOk(j, m, i, Step(j, m.w, m.workers[i]).0, Step(j, m.w, m.workers[i]).1);
  }

  lemma StopOk(j: Job, m: Machine, i: nat, pc: Pc)
    requires MachineOk(j, m) && i < |m.workers| && (pc == Raised(m.workers[i]) || pc.Ended?)
    ensures MachineOk(j, Moved(m, i, m.w, pc))
  {
    assert PcOk(j, m.w, m.workers[i]);
    MovedOk(j, m, i, m.w, pc);
  }

  lemma StartOk(j: Job, m: Machine, w: World, pc: Pc)
    requires MachineOk(j, m) && WorldOk(j, w) && Grows(j, m.w, w) && PcOk(j, w, pc)
    ensures MachineOk(j, m.(w := w, workers := m.workers + [pc]))
    ensures MachineOk(j, m.(w := w))
  {
    OthersStay(j, m, m.(w := w, workers := m.workers + [pc]));
    OthersStay(j, m, m.(w := w));
  }

  lemma StartsOk(j: Job, m: Machine, a: Action)
    requires MachineOk(j, m) && (a.StartProbe? || a.StartTranscode? || a.StartPackage?)
    ensures MachineOk(j, Acted(j, m, a))
  {
    match a
    case StartProbe => StartOk(j, m, m.w, Probing(0));
    case StartTranscode(r) =>
      if Requested(r) in m.w.published {
        assert MessageOk(j, m.w.store, Requested(r));
        StartOk(j, m, m.w, HeadMp4(r));
      }
    case StartPackage(fact, again) =>
      if ForPackager(fact) && fact in m.w.published {
        StartOk(j, m, if again then m.w else m.w.(pending := m.w.pending - multiset{fact}), RecordFact(fact));
      }
  }

  lemma EnvironmentOk(j: Job, m: Machine, a: Action)
    requires MachineOk(j, m) && (a.Deliver? || a.Elsewhere? || a.Tick?)
    ensures MachineOk(j, Acted(j, m, a))
  {
    match a
    case Deliver(message) =>
      if message in m.w.held {
        SendOk(j, m.w, message);
        StartOk(j, m, Send(m.w, message), Ended(true));
      }
    case Elsewhere(op) =>
      if Foreign(j, op) {
        WriteOk(j, m.w, op);
        StartOk(j, m, Write(m.w, op), Ended(true));
      }
    case Tick(elapsed) => StartOk(j, m, m.w.(now := m.w.now + elapsed), Ended(true));
  }

  lemma ActOk(j: Job, m: Machine, a: Action)
    requires MachineOk(j, m)
    ensures MachineOk(j, Acted(j, m, a))
  {
    match a
    case Advance(i) =>
      if i < |m.workers| {
        WorkerOk(j, m, i);
      }
    case Raise(i) =>
      if i < |m.workers| {
        StopOk(j, m, i, Raised(m.workers[i]));
      }
    case Kill(i) =>
      if i < |m.workers| {
        StopOk(j, m, i, Ended(false));
      }
    case FlushShort(i) =>
      if i < |m.workers| {
        StopOk(j, m, i, Ended(true));
      }
    case StartProbe => StartsOk(j, m, a);
    case StartTranscode(_) => StartsOk(j, m, a);
    case StartPackage(_, _) => StartsOk(j, m, a);
    case _ => EnvironmentOk(j, m, a);
  }

  lemma {:induction false} RunOk(j: Job, t: Table, now: int, actions: seq<Action>)
    requires Fresh(j, t)
    ensures MachineOk(j, Run(j, Begin(t, now), actions))
  {
    if actions != [] {
      RunOk(j, t, now, actions[..|actions| - 1]);
      ActOk(j, Run(j, Begin(t, now), actions[..|actions| - 1]), actions[|actions| - 1]);
    }
  }

  // --------------------------------------------------------------------- the results

  /** One variant of the master playlist: its reference leads to a playlist of this rendition, whose own
      references lead to segments, and the MP4 is there too. */
  ghost predicate VariantPlays(j: Job, store: map<Key, Content>, r: Rendition, uri: string) {
    && Playlist(r) in store && store[Playlist(r)] == Listing(j.segments(r)) && Mp4(r) in store
    && Resolve(KeyText(j.owner, j.video, Master), uri) == KeyText(j.owner, j.video, Playlist(r))
    && forall name :: name in j.segments(r) ==>
         Segment(r, name) in store
         && Resolve(KeyText(j.owner, j.video, Playlist(r)), name) == KeyText(j.owner, j.video, Segment(r, name))
  }

  ghost predicate Playable(j: Job, store: map<Key, Content>) {
    && Master in store && store[Master].Lines?
    && match Hls.ReadMaster(store[Master].text)
       case None => false
       case Some(variants) =>
         |variants| == |j.ladder| && forall i :: 0 <= i < |variants| ==> VariantPlays(j, store, j.ladder[i], variants[i].uri)
  }

  lemma RenditionPlays(j: Job, w: World, r: Rendition)
    requires WorldOk(j, w) && AllRecorded(j, w.table) && r in j.ladder
    ensures VariantPlays(j, w.store, r, Hls.Uri(r))
  {
    assert Whole(j, w.store, r);
    ReferencesResolve(j.owner, j.video, r, "");
    forall name | name in j.segments(r)
      ensures Resolve(KeyText(j.owner, j.video, Playlist(r)), name) == KeyText(j.owner, j.video, Segment(r, name))
    {
      ReferencesResolve(j.owner, j.video, r, name);
    }
  }

  lemma MasterPlays(j: Job, w: World)
    requires ValidJob(j) && WorldOk(j, w) && Master in w.store
    ensures Playable(j, w.store)
  {
    InOrderOfLadder(j);
    Hls.LadderListed(j.ladder, InTextOrder(j.ladder));
    var variants := Hls.Variants(j.ladder);
    forall i | 0 <= i < |j.ladder|
      ensures VariantPlays(j, w.store, j.ladder[i], variants[i].uri)
    {
      RenditionPlays(j, w, j.ladder[i]);
    }
  }

  /** End to end: in every reachable state, a `video.completed` that was even handed to a producer names the
      master's key and the whole ladder, and the master is there, lists exactly the ladder in rung order, and
      every reference in it resolves to a playlist that is there, with its segments and its MP4. */
  lemma CompletedIsPlayable(j: Job, t: Table, now: int, actions: seq<Action>, m: Message)
    requires ValidJob(j) && Fresh(j, t)
    requires m in Run(j, Begin(t, now), actions).w.held && m.Packaged?
    ensures m.master == KeyText(j.owner, j.video, Master) && multiset(m.renditions) == multiset(j.ladder)
    ensures Playable(j, Run(j, Begin(t, now), actions).w.store)
  {
    var w := Run(j, Begin(t, now), actions).w;
    RunOk(j, t, now, actions);
    assert MessageOk(j, w.store, m);
    InOrderOfLadder(j);
    MasterPlays(j, w);
  }

  /** Whatever happens to a transcode and whenever it is delivered again: a playlist implies the MP4 and
      every segment it lists, and an MP4 implies the rendition's row. */
  lemma TranscodeCrashSafe(j: Job, t: Table, now: int, actions: seq<Action>, r: string)
    requires Fresh(j, t)
    ensures var w := Run(j, Begin(t, now), actions).w;
            && (Playlist(r) in w.store ==>
                  Mp4(r) in w.store && w.store[Playlist(r)] == Listing(j.segments(r))
                  && forall name :: name in j.segments(r) ==> Segment(r, name) in w.store)
            && (Mp4(r) in w.store ==> HasRendition(w.table, j.video, r))
  {
    RunOk(j, t, now, actions);
    assert Playlist(r) in Run(j, Begin(t, now), actions).w.store ==> Whole(j, Run(j, Begin(t, now), actions).w.store, r);
  }

  /** The packager's missing-row branch is never taken. */
  lemma RowNeverMissing(j: Job, t: Table, now: int, actions: seq<Action>, i: nat)
    requires Fresh(j, t) && i < |Run(j, Begin(t, now), actions).workers|
    requires var pc := Run(j, Begin(t, now), actions).workers[i]; pc.RecordFact? && pc.fact.Ready?
    ensures var m := Run(j, Begin(t, now), actions);
            HasRendition(m.w.table, j.video, m.workers[i].fact.rendition)
  {
    var m := Run(j, Begin(t, now), actions);
    RunOk(j, t, now, actions);
    assert PcOk(j, m.w, m.workers[i]);
    assert MessageOk(j, m.w.store, m.workers[i].fact);
  }

  /** Content is written once: whatever two runs ever put at a key, the master's included, is the same. */
  lemma ContentWrittenOnce(j: Job, t1: Table, now1: int, run1: seq<Action>, t2: Table, now2: int, run2: seq<Action>, key: Key)
    requires Fresh(j, t1) && Fresh(j, t2)
    requires key in Run(j, Begin(t1, now1), run1).w.store && key in Run(j, Begin(t2, now2), run2).w.store
    ensures Run(j, Begin(t1, now1), run1).w.store[key] == Run(j, Begin(t2, now2), run2).w.store[key]
  {
    RunOk(j, t1, now1, run1);
    RunOk(j, t2, now2, run2);
  }

  // -------------------------------------------------------------- the keys that travel

  /** The one cell a statement can put a playlist key into. */
  lemma PlaylistCell(t: Table, op: Op, v: string, r: string)
    ensures Held(Apply(t, op), R(v, r, PackagerPlaylistKey))
            == if op.RecordPlaylist? && op.video == v && op.rendition == r && HasRendition(t, v, r) then Some(Str(op.key))
               else Held(t, R(v, r, PackagerPlaylistKey))
  {
    if !IsPackager(op) {
      OthersIgnorePackager(t, op, R(v, r, PackagerPlaylistKey), Present);
    }
  }

  /** Every playlist key the packager has on record is the key of that rendition's playlist. */
  ghost predicate KeysRecorded(j: Job, t: Table) {
    forall r :: HasPlaylist(t, j.video, r) ==> t[R(j.video, r, PackagerPlaylistKey)] == Str(HlsPlaylistKey(j.owner, j.video, r))
  }

  lemma OpKeysRecorded(j: Job, t: Table, op: Op)
    requires KeysRecorded(j, t)
    requires op.RecordPlaylist? && op.video == j.video ==> op.key == HlsPlaylistKey(j.owner, j.video, op.rendition)
    ensures KeysRecorded(j, Apply(t, op))
  {
    forall r | HasPlaylist(Apply(t, op), j.video, r)
      ensures Apply(t, op)[R(j.video, r, PackagerPlaylistKey)] == Str(HlsPlaylistKey(j.owner, j.video, r))
    {
      PlaylistCell(t, op, j.video, r);
      PlaylistEffect(t, op, j.video, r);
    }
  }

  lemma {:induction false} SendFirstTable(j: Job, w: World, k: nat)
    requires k <= |j.ladder| + 1
    ensures SendFirst(j, w, k).table == w.table
  {
    if k > 0 {
      SendFirstTable(j, w, k - 1);
    }
  }

  lemma TranscodeKeysRecorded(j: Job, w: World, pc: Pc)
    requires IsTranscoding(pc) && KeysRecorded(j, w.table)
    ensures KeysRecorded(j, TranscodeStep(j, w, pc).0.table)
  {
    if pc.ClaimRow? {
      OpKeysRecorded(j, w.table, Op.ClaimRendition(j.owner, j.video, pc.rendition, w.now));
    }
  }

  lemma PackageKeysRecorded(j: Job, w: World, pc: Pc)
    requires IsPackaging(pc) && KeysRecorded(j, w.table)
    requires pc.fact.Ready? ==> pc.fact.playlist == HlsPlaylistKey(j.owner, j.video, pc.fact.rendition)
    ensures KeysRecorded(j, PackageStep(j, w, pc).0.table)
  {
    if pc.RecordFact? {
      match pc.fact {
        case Planned(expected) => OpKeysRecorded(j, w.table, Op.RecordExpected(j.video, expected));
        case Ready(r, key) => OpKeysRecorded(j, w.table, Op.RecordPlaylist(j.video, r, key));
        case _ =>
      }
    } else if pc.ClaimVideo? {
      OpKeysRecorded(j, w.table, Op.ClaimPackaging(j.video, w.now));
    } else if pc.ReleaseVideo? {
      OpKeysRecorded(j, w.table, Op.ReleaseClaim(j.video));
    }
  }

  lemma StepKeysRecorded(j: Job, w: World, pc: Pc)
    requires KeysRecorded(j, w.table)
    requires IsPackaging(pc) && pc.fact.Ready? ==> pc.fact.playlist == HlsPlaylistKey(j.owner, j.video, pc.fact.rendition)
    ensures KeysRecorded(j, Step(j, w, pc).0.table)
  {
    if pc.Probing? {
      SendFirstTable(j, w, |j.ladder| + 1);
    } else if IsTranscoding(pc) {
      TranscodeKeysRecorded(j, w, pc);
    } else if IsPackaging(pc) {
      PackageKeysRecorded(j, w, pc);
    }
  }

  lemma HeldKey(j: Job, w: World, m: Message)
    requires MessagesOk(j, w) && m in w.held && m.Ready?
    ensures m.playlist == HlsPlaylistKey(j.owner, j.video, m.rendition) && Playlist(m.rendition) in w.store
  {
    assert MessageOk(j, w.store, m);
  }

  lemma ActKeysRecorded(j: Job, m: Machine, a: Action)
    requires MachineOk(j, m) && KeysRecorded(j, m.w.table)
    ensures KeysRecorded(j, Acted(j, m, a).w.table)
  {
    if a.Advance? && a.worker < |m.workers| {
      var pc := m.workers[a.worker];
      assert PcOk(j, m.w, pc);
      if IsPackaging(pc) && pc.fact.Ready? {
        HeldKey(j, m.w, pc.fact);
      }
      StepKeysRecorded(j, m.w, pc);
    } else if a.Elsewhere? && Foreign(j, a.op) {
      OpKeysRecorded(j, m.w.table, a.op);
    }
  }

  lemma {:induction false} RunKeysRecorded(j: Job, t: Table, now: int, actions: seq<Action>)
    requires Fresh(j, t)
    ensures KeysRecorded(j, Run(j, Begin(t, now), actions).w.table)
  {
    if actions != [] {
      RunKeysRecorded(j, t, now, actions[..|actions| - 1]);
      RunOk(j, t, now, actions[..|actions| - 1]);
      ActKeysRecorded(j, Run(j, Begin(t, now), actions[..|actions| - 1]), actions[|actions| - 1]);
    }
  }

  /** Over every run: each `rendition.completed` ever handed to a producer carries the text of its rendition's
      playlist key, under which there is an object; every playlist key the packager has on record is that text;
      and so is whatever the join reads back. */
  lemma PlaylistKeysTravel(j: Job, t: Table, now: int, actions: seq<Action>)
    requires Fresh(j, t)
    ensures var w := Run(j, Begin(t, now), actions).w;
            && (forall m :: m in w.held && m.Ready? ==>
                  && m.playlist == HlsPlaylistKey(j.owner, j.video, m.rendition)
                  && exists key :: key in w.store && KeyText(j.owner, j.video, key) == m.playlist)
            && (forall r :: HasPlaylist(w.table, j.video, r) ==>
                  w.table[R(j.video, r, PackagerPlaylistKey)] == Str(HlsPlaylistKey(j.owner, j.video, r)))
            && (forall names, r :: r in PlaylistsOf(w.table, j.video, names) ==>
                  PlaylistsOf(w.table, j.video, names)[r] == HlsPlaylistKey(j.owner, j.video, r))
  {
    RunOk(j, t, now, actions);
    RunKeysRecorded(j, t, now, actions);
    var w := Run(j, Begin(t, now), actions).w;
    forall m | m in w.held && m.Ready?
      ensures m.playlist == HlsPlaylistKey(j.owner, j.video, m.rendition)
      ensures exists key :: key in w.store && KeyText(j.owner, j.video, key) == m.playlist
    {
      HeldKey(j, w, m);
      assert KeyText(j.owner, j.video, Playlist(m.rendition)) == m.playlist;
    }
  }
}
