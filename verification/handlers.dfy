/** The three handlers as they are written, one after the other on the shared state, with any call of a
    client free to raise: each run of a handler is a run of its worker in the machine
    (backend/services/worker_probe/main.py, worker_transcode/main.py, worker_package/main.py). */
module Handlers {
  import opened Text
  import opened Ladder
  import opened Tables
  import opened Storage
  import opened Pipeline
  import Hls

  /** How a call goes: it works, it raises, or, for a flush, it times out and says so in a count that is
      thrown away. */
  datatype Luck = Fine | Raises | TimesOut

  function OneMove(j: Job, w: World, pc: Pc, luck: Luck): (World, Pc) {
    match luck
    case Fine => Step(j, w, pc)
    case Raises => (w, if pc.Ended? then pc else Raised(pc))
    case TimesOut => (w, if AtFlush(j, pc) then Ended(true) else pc)
  }

  /** A worker by itself. */
  function Alone(j: Job, w: World, pc: Pc, moves: seq<Luck>): (World, Pc) {
    if moves == [] then (w, pc)
    else
      var (w', pc') := Alone(j, w, pc, moves[..|moves| - 1]);
      OneMove(j, w', pc', moves[|moves| - 1])
  }

  lemma AloneSnoc(j: Job, w: World, pc: Pc, moves: seq<Luck>, move: Luck)
    ensures var (w', pc') := Alone(j, w, pc, moves);
            Alone(j, w, pc, moves + [move]) == OneMove(j, w', pc', move)
  {
    assert (moves + [move])[..|moves|] == moves;
  }

  function ActionOf(i: nat, luck: Luck): Action {
    match luck
    case Fine => Advance(i)
    case Raises => Raise(i)
    case TimesOut => FlushShort(i)
  }

  function Script(i: nat, moves: seq<Luck>): seq<Action> {
    if moves == [] then [] else Script(i, moves[..|moves| - 1]) + [ActionOf(i, moves[|moves| - 1])]
  }

  /** Equal but for the packager's returned messages. */
  predicate SameBut(w: World, w': World) {
    w == w'.(pending := w.pending)
  }

  lemma MoveActs(j: Job, m: Machine, others: seq<Pc>, w: World, pc: Pc, luck: Luck)
    requires m.workers == others + [pc] && SameBut(m.w, w) && (!pc.Ended? ==> m.w == w)
    ensures var m' := Acted(j, m, ActionOf(|others|, luck));
            var (w', pc') := OneMove(j, w, pc, luck);
            m'.workers == others + [pc'] && SameBut(m'.w, w') && (!pc'.Ended? ==> m'.w == w')
  {
    var pc' := OneMove(j, w, pc, luck).1;
    assert (others + [pc])[|others| := pc'] == others + [pc'];
  }

  /** Every handler run is a run of the machine in which the other workers stand still. */
  lemma {:induction false} AloneIsARun(j: Job, w: World, others: seq<Pc>, pc: Pc, moves: seq<Luck>)
    ensures var m := Run(j, Machine(w, others + [pc], false), Script(|others|, moves));
            var (w', pc') := Alone(j, w, pc, moves);
            m.workers == others + [pc'] && SameBut(m.w, w') && (!pc'.Ended? ==> m.w == w')
  {
    if moves != [] {
      var init := moves[..|moves| - 1];
      AloneIsARun(j, w, others, pc, init);
      var (w', pc') := Alone(j, w, pc, init);
      MoveActs(j, Run(j, Machine(w, others + [pc], false), Script(|others|, init)), others, w', pc', moves[|moves| - 1]);
      var script := Script(|others|, moves);
      assert script[..|script| - 1] == Script(|others|, init);
    }
  }

  function Copied(w: World, source: Key, target: Key): World
    requires source in w.store
  {
    Put(w, target, w.store[source]).(mp4Copies := if target.Mp4? then w.mp4Copies + multiset{target.rendition} else w.mp4Copies)
  }

  /** A worker process: its bucket, its database sessions, its producer's queue and what left it. */
  class Site {
    const job: Job
    const bucket: ObjectStore<Key, Content>
    const db: Repositories
    const clock: int
    var queue: set<Message>
    var sent: set<Message>
    var luck: seq<Luck>

    ghost var w: World
    ghost var startW: World
    ghost var startPc: Pc
    ghost var moves: seq<Luck>
    ghost var pc: Pc

    constructor (job: Job, bucket: ObjectStore<Key, Content>, db: Repositories, clock: int, luck: seq<Luck>)
      ensures this.job == job && this.bucket == bucket && this.db == db && this.clock == clock
      ensures Shared()
    {
      this.job, this.bucket, this.db, this.clock, this.luck := job, bucket, db, clock, luck;
      queue, sent := {}, {};
      w := World(bucket.objects, db.table, clock, {}, {}, multiset{}, multiset{});
    }

    /** The world is what the bucket, the database and the producer hold. */
    ghost predicate Shared()
      reads this, bucket, db
    {
      w.store == bucket.objects && w.table == db.table && w.now == clock && w.held == queue && w.published == sent
    }

    /** The handler so far is a run of its worker. */
    ghost predicate Valid()
      reads this, bucket, db
    {
      Shared() && Alone(job, startW, startPc, moves) == (w, pc)
    }

    /** The last call was the worker's next step, or raised. */
    ghost predicate Did(w0: World, pc0: Pc, fine: bool)
      reads this, bucket, db
    {
      Valid() && (w, pc) == if fine then Step(job, w0, pc0) else (w0, Raised(pc0))
    }

    ghost predicate SameRun(w0: World, pc0: Pc)
      reads this
    {
      startW == w0 && startPc == pc0
    }

    ghost method Enter(first: Pc)
      requires Shared()
      modifies this`startW, this`startPc, this`moves, this`pc
      ensures Valid() && pc == first && SameRun(w, first)
    {
      startW, startPc, moves, pc := w, first, [], first;
    }

    method Lucky() returns (luck: Luck)
      modifies this`luck
    {
      luck := if this.luck == [] then Fine else this.luck[0];
      this.luck := if this.luck == [] then [] else this.luck[1..];
    }

    /** Books a call that is now over. */
    ghost method Note(w0: World, w1: World, luck: Luck)
      requires Alone(job, startW, startPc, moves) == (w0, pc) && !pc.Ended?
      requires w1 == OneMove(job, w0, pc, luck).0
      requires w1.store == bucket.objects && w1.table == db.table && w1.now == clock && w1.held == queue && w1.published == sent
      modifies this`w, this`moves, this`pc
      ensures Valid() && (w, pc) == OneMove(job, w0, old(pc), luck)
    {
      AloneSnoc(job, startW, startPc, moves, luck);
      moves := moves + [luck];
      w, pc := w1, OneMove(job, w0, pc, luck).1;
    }

    // Client calls. Only a flush can time out; any other call that does raises.

    method Exists(key: Key) returns (fine: bool, found: bool)
      requires Valid() && !pc.Ended? && Step(job, w, pc).0 == w
      modifies this`luck, this`moves, this`pc, this`w
      ensures Did(old(w), old(pc), fine) && w == old(w) && (fine ==> found == (key in w.store))
    {
      var luck := Lucky();
      fine := luck.Fine?;
      var head := bucket.Head(key);
      found := head.Some?;
      Note(w, w, if fine then Fine else Raises);
    }

    method Upload(key: Key, content: Content) returns (fine: bool)
      requires Valid() && !pc.Ended? && Step(job, w, pc).0 == Put(w, key, content)
      modifies this`luck, this`moves, this`pc, this`w, bucket
      ensures Did(old(w), old(pc), fine)
    {
      var luck := Lucky();
      fine := luck.Fine?;
      if fine {
        bucket.Upload(content, key);
      }
      Note(w, if fine then Put(w, key, content) else w, if fine then Fine else Raises);
    }

    /** The copy of a promotion; a missing source raises. */
    method Copy(source: Key, target: Key) returns (fine: bool)
      requires Valid() && !pc.Ended? && Step(job, w, pc).0 == (if source in w.store then Copied(w, source, target) else w)
      requires source !in w.store ==> Step(job, w, pc).1 == Raised(pc)
      modifies this`luck, this`moves, this`pc, this`w, bucket
      ensures Did(old(w), old(pc), fine) && (fine ==> source in old(w).store)
    {
      var luck := Lucky();
      fine := luck.Fine?;
      if fine {
        fine := bucket.Copy(source, target);
      }
      Note(w, if fine then Copied(w, source, target) else w, if fine then Fine else Raises);
    }

    method Delete(key: Key) returns (fine: bool)
      requires Valid() && !pc.Ended? && Step(job, w, pc).0 == Drop(w, key)
      modifies this`luck, this`moves, this`pc, this`w, bucket
      ensures Did(old(w), old(pc), fine)
    {
      var luck := Lucky();
      fine := luck.Fine?;
      if fine {
        bucket.Delete(key);
      }
      Note(w, if fine then Drop(w, key) else w, if fine then Fine else Raises);
    }

    method Publish(m: Message) returns (fine: bool)
      requires Valid() && !pc.Ended? && Step(job, w, pc).0 == Hold(w, m)
      modifies this`luck, this`moves, this`pc, this`w, this`queue
      ensures Did(old(w), old(pc), fine)
    {
      var luck := Lucky();
      fine := luck.Fine?;
      if fine {
        queue := queue + {m};
      }
      Note(w, if fine then Hold(w, m) else w, if fine then Fine else Raises);
    }

    /** `producer.flush()`: it may raise, or return with the message still queued; the handler does not look
        at what it returns, so `drained` is ghost. */
    method Flush(m: Message) returns (fine: bool, ghost drained: bool)
      requires Valid() && AtFlush(job, pc) && Step(job, w, pc) == (Send(w, m), Ended(true)) && m in w.held
      modifies this`luck, this`moves, this`pc, this`w, this`queue, this`sent
      ensures Valid() && pc == (if fine then Ended(true) else Raised(old(pc)))
      ensures w == (if fine && drained then Send(old(w), m) else old(w))
    {
      var luck := Lucky();
      fine, drained := luck != Raises, luck.Fine?;
      if luck.Fine? {
        queue, sent := queue + {m}, sent + {m};
      }
      Note(w, if drained then Send(w, m) else w, luck);
    }

    // The transcode handler.

    method ClaimRendition(r: string) returns (fine: bool)
      requires Valid() && pc == ClaimRow(r)
      modifies this`luck, this`moves, this`pc, this`w, db
      ensures Valid() && pc == if fine then UploadMp4(r) else Ended(false)
    {
      var luck := Lucky();
      fine := luck.Fine?;
      ghost var op := Op.ClaimRendition(job.owner, job.video, r, clock);
      var won := false;
      if fine {
        won := db.Claim(job.owner, job.video, r, clock);
      }
      Note(w, if fine then Write(w, op) else w, if fine then Fine else Raises);
      fine := fine && won;
    }

    method PromoteMp4(r: string) returns (fine: bool)
      requires Valid() && pc == CopyMp4(r)
      modifies this`luck, this`moves, this`pc, this`w, bucket
      ensures Valid() && pc == if fine then UploadSegment(r, 0) else Ended(false)
    {
      fine := Copy(Mp4Part(r), Mp4(r));
      if fine {
        assert pc == DeleteMp4Part(r);
        fine := Delete(Mp4Part(r));
      }
    }

    method PromotePlaylist(r: string) returns (fine: bool)
      requires Valid() && pc == CopyPlaylist(r)
      modifies this`luck, this`moves, this`pc, this`w, bucket
      ensures Valid() && pc == if fine then TellReady(r) else Ended(false)
    {
      fine := Copy(PlaylistPart(r), Playlist(r));
      if fine {
        assert pc == DeletePlaylistPart(r);
        fine := Delete(PlaylistPart(r));
      }
    }

    /** Claim, encode, upload, promote. */
    method MakeMp4(r: string) returns (fine: bool)
      requires Valid() && pc == ClaimRow(r)
      modifies this`luck, this`moves, this`pc, this`w, bucket, db
      ensures Valid() && pc == if fine then UploadSegment(r, 0) else Ended(false)
    {
      fine := ClaimRendition(r);
      if fine {
        fine := Upload(Mp4Part(r), Encoded(r));
      }
      if fine {
        fine := PromoteMp4(r);
      }
    }

    method UploadSegments(r: string) returns (fine: bool)
      requires Valid() && pc == UploadSegment(r, 0)
      modifies this`luck, this`moves, this`pc, this`w, bucket
      ensures Valid() && pc == if fine then UploadPlaylist(r) else Ended(false)
    {
      var names := job.segments(r);
      for k := 0 to |names|
        invariant Valid() && pc == UploadSegment(r, k)
      {
        fine := Upload(Segment(r, names[k]), Chunk(r, names[k]));
        if !fine {
          return;
        }
      }
      fine := true;
      Note(w, w, Fine);
    }

    /** Upload every segment, then promote the playlist. */
    method MakeHls(r: string) returns (fine: bool)
      requires Valid() && pc == UploadSegment(r, 0)
      modifies this`luck, this`moves, this`pc, this`w, bucket
      ensures Valid() && pc == if fine then TellReady(r) else Ended(false)
    {
      fine := UploadSegments(r);
      if fine {
        fine := Upload(PlaylistPart(r), Listing(job.segments(r)));
      }
      if fine {
        fine := PromotePlaylist(r);
      }
    }

    method AnnounceReady(r: string) returns (fine: bool, ghost drained: bool)
      requires Valid() && pc == TellReady(r)
      modifies this`luck, this`moves, this`pc, this`w, this`queue, this`sent
      ensures Valid() && pc == Ended(fine)
      ensures fine ==> ReadyMessage(job, r) in w.held && (drained ==> ReadyMessage(job, r) in w.published)
    {
      drained := false;
      fine := Publish(ReadyMessage(job, r));
      if fine {
        fine, drained := Flush(ReadyMessage(job, r));
      }
    }

    /** The two checks that decide what is left to do. */
    method Look(r: string) returns (fine: bool, mp4: bool, ready: bool)
      requires Valid() && pc == HeadMp4(r)
      modifies this`luck, this`moves, this`pc, this`w
      ensures Valid() && pc == if !fine then Ended(false) else if !mp4 then ClaimRow(r) else if ready then TellReady(r) else UploadSegment(r, 0)
    {
      ready := false;
      fine, mp4 := Exists(Mp4(r));
      if fine {
        fine, ready := Exists(Playlist(r));
      }
    }

    method MakeMissing(r: string, mp4: bool) returns (fine: bool)
      requires Valid() && pc == if mp4 then UploadSegment(r, 0) else ClaimRow(r)
      modifies this`luck, this`moves, this`pc, this`w, bucket, db
      ensures Valid() && pc == if fine then TellReady(r) else Ended(false)
    {
      fine := true;
      if !mp4 {
        fine := MakeMp4(r);
      }
      if fine {
        fine := MakeHls(r);
      }
    }

    /** Whatever of the rendition is not there yet. */
    method Prepare(r: string) returns (fine: bool)
      requires Valid() && pc == HeadMp4(r)
      modifies this`luck, this`moves, this`pc, this`w, bucket, db
      ensures Valid() && pc == if fine then TellReady(r) else Ended(false)
    {
      var mp4, ready;
      fine, mp4, ready := Look(r);
      if fine && !(mp4 && ready) {
        fine := MakeMissing(r, mp4);
      }
    }

    /** A normal return means the announcement was handed to the producer, and is out if the flush drained. */
    method Transcode(r: string) returns (ok: bool, ghost drained: bool)
      requires Shared()
      modifies this, bucket, db
      ensures Valid() && SameRun(old(w), HeadMp4(r)) && pc == Ended(ok)
      ensures ok ==> ReadyMessage(job, r) in w.held && (drained ==> ReadyMessage(job, r) in w.published)
    {
      drained := false;
      Enter(HeadMp4(r));
      ok := Prepare(r);
      if ok {
        ok, drained := AnnounceReady(r);
      }
    }

    // The probe handler, once it has probed.

    /** The plan and the requests come from one ladder. */
    method Probe() returns (ok: bool, ghost drained: bool)
      requires Shared()
      modifies this
      ensures Valid() && SameRun(old(w), Probing(0)) && pc == Ended(ok)
      ensures ok ==> AllOf(job, w.held) && (drained ==> AllOf(job, w.published))
    {
      drained := false;
      Enter(Probing(0));
      ok := Plan();
      if ok {
        ok := RequestAll();
      }
      if ok {
        ok, drained := FlushProbe();
      }
    }

    method Plan() returns (fine: bool)
      requires Valid() && pc == Probing(0)
      modifies this`luck, this`moves, this`pc, this`w, this`queue
      ensures Valid() && pc == if fine then Probing(1) else Ended(false)
      ensures fine ==> Planned(job.ladder) in w.held
    {
      fine := Publish(Planned(job.ladder));
    }

    method RequestAll() returns (fine: bool)
      requires Valid() && pc == Probing(1) && Planned(job.ladder) in w.held
      modifies this`luck, this`moves, this`pc, this`w, this`queue
      ensures Valid() && pc == if fine then Probing(|job.ladder| + 1) else Ended(false)
      ensures fine ==> AllOf(job, w.held)
    {
      for k := 0 to |job.ladder|
        invariant Valid() && pc == Probing(k + 1)
        invariant Planned(job.ladder) in w.held && forall i :: 0 <= i < k ==> Requested(job.ladder[i]) in w.held
      {
        fine := Request(k);
        if !fine {
          return;
        }
      }
      fine := true;
    }

    method Request(k: nat) returns (fine: bool)
      requires Valid() && k < |job.ladder| && pc == Probing(k + 1)
      modifies this`luck, this`moves, this`pc, this`w, this`queue
      ensures Valid() && pc == if fine then Probing(k + 2) else Ended(false)
      ensures old(w).held <= w.held && (fine ==> Requested(job.ladder[k]) in w.held)
    {
      fine := Publish(Requested(job.ladder[k]));
    }

    method FlushProbe() returns (fine: bool, ghost drained: bool)
      requires Valid() && pc == Probing(|job.ladder| + 1) && AllOf(job, w.held)
      modifies this`luck, this`moves, this`pc, this`w, this`queue, this`sent
      ensures Valid() && pc == Ended(fine) && AllOf(job, w.held)
      ensures fine && drained ==> AllOf(job, w.published)
    {
      var luck := Lucky();
      fine, drained := luck != Raises, luck.Fine?;
      ghost var after := SendFirst(job, w, |job.ladder| + 1);
      var plan := {Planned(job.ladder)} + (set i | 0 <= i < |job.ladder| :: Requested(job.ladder[i]));
      SentIsPlan(job, w, plan);
      if luck.Fine? {
        queue, sent := queue + plan, sent + plan;
      }
      Note(w, if drained then after else w, luck);
    }

    // The packaging handler.

    method AnnounceDone(fact: Message, names: seq<Rendition>, claimed: bool) returns (fine: bool, ghost drained: bool)
      requires Valid() && pc == TellDone(fact, names, claimed)
      modifies this`luck, this`moves, this`pc, this`w, this`queue, this`sent
      ensures Valid() && pc == if fine then Ended(true) else if claimed then ReleaseVideo(fact) else Ended(false)
      ensures fine ==> DoneMessage(job, names) in w.held && (drained ==> DoneMessage(job, names) in w.published)
      ensures w.table == old(w).table
    {
      drained := false;
      fine := Publish(DoneMessage(job, names));
      if fine {
        fine, drained := Flush(DoneMessage(job, names));
      }
    }

    method PromoteMaster(fact: Message, names: seq<Rendition>) returns (fine: bool)
      requires Valid() && pc == CopyMaster(fact, names)
      modifies this`luck, this`moves, this`pc, this`w, bucket
      ensures Valid() && pc == if fine then TellDone(fact, names, true) else ReleaseVideo(fact)
      ensures w.table == old(w).table
    {
      fine := Copy(MasterPart, Master);
      if fine {
        fine := Delete(MasterPart);
      }
    }

    /** The body of the `try`. */
    method WriteMaster(fact: Message, names: seq<Rendition>) returns (fine: bool, ghost drained: bool)
      requires Valid() && pc == UploadMaster(fact, names)
      modifies this`luck, this`moves, this`pc, this`w, this`queue, this`sent, bucket
      ensures Valid() && pc == if fine then Ended(true) else ReleaseVideo(fact)
      ensures fine ==> DoneMessage(job, names) in w.held && (drained ==> DoneMessage(job, names) in w.published)
      ensures w.table == old(w).table
    {
      drained := false;
      var text := Hls.BuildMasterPlaylist(names);
      fine := Upload(MasterPart, Lines(text));
      if fine {
        fine := PromoteMaster(fact, names);
      }
      if fine {
        fine, drained := AnnounceDone(fact, names, true);
      }
    }

    /** The claim, committed; denied is not an error. */
    method ClaimPackaging(fact: Message, names: seq<Rendition>) returns (fine: bool, won: bool)
      requires Valid() && pc == ClaimVideo(fact, names)
      modifies this`luck, this`moves, this`pc, this`w, db
      ensures Valid() && pc == if won then UploadMaster(fact, names) else Ended(fine)
      ensures won ==> fine
      ensures fine && !won ==> !WinsPackaging(w.table, job.video, w.now)
      ensures ExpectedOf(w.table, job.video) == ExpectedOf(old(w).table, job.video)
    {
      var luck := Lucky();
      fine, won := luck.Fine?, false;
      if fine {
        won := db.ClaimPackaging(job.video, clock);
      }
      Note(w, if fine then Write(w, Op.ClaimPackaging(job.video, clock)) else w, if fine then Fine else Raises);
    }

    method Release(fact: Message)
      requires Valid() && pc == ReleaseVideo(fact)
      modifies this`luck, this`moves, this`pc, this`w, db
      ensures Valid() && pc == Ended(false)
    {
      var luck := Lucky();
      if luck.Fine? {
        db.Release(job.video);
      }
      Note(w, if luck.Fine? then Write(w, ReleaseClaim(job.video)) else w, if luck.Fine? then Fine else Raises);
    }

    /** The `try`, and the handler that gives the claim back before the exception goes on. */
    method WriteOrRelease(fact: Message, names: seq<Rendition>) returns (ok: bool, ghost drained: bool)
      requires Valid() && pc == UploadMaster(fact, names)
      modifies this`luck, this`moves, this`pc, this`w, this`queue, this`sent, bucket, db
      ensures Valid() && pc == Ended(ok)
      ensures ok ==> DoneMessage(job, names) in w.held && (drained ==> DoneMessage(job, names) in w.published)
      ensures ok ==> w.table == old(w).table
    {
      ok, drained := WriteMaster(fact, names);
      if !ok {
        Release(fact);
      }
    }

    /** A normal return: the announcement was handed to the producer, and is out if the flush drained, or the
        claim was live and somebody else's. */
    method TryPackage(fact: Message, names: seq<Rendition>) returns (ok: bool, ghost drained: bool)
      requires Valid() && pc == CheckMaster(fact, names)
      modifies this`luck, this`moves, this`pc, this`w, this`queue, this`sent, bucket, db
      ensures Valid() && pc == Ended(ok)
      ensures ok ==> || (DoneMessage(job, names) in w.held && (drained ==> DoneMessage(job, names) in w.published))
                     || !WinsPackaging(w.table, job.video, w.now)
      ensures ok ==> ExpectedOf(w.table, job.video) == ExpectedOf(old(w).table, job.video)
    {
      ok, drained := false, false;
      var fine, done := Exists(Master);
      if !fine {
        return;
      }
      if done {
        ok, drained := AnnounceDone(fact, names, false);
        return;
      }
      var won;
      ok, won := ClaimPackaging(fact, names);
      if won {
        ok, drained := WriteOrRelease(fact, names);
      }
    }

    /** record_expected or record_rendition; a missing row, or another event, is an error. */
    method Record(fact: Message) returns (fine: bool)
      requires Valid() && pc == RecordFact(fact)
      modifies this`luck, this`moves, this`pc, this`w, db
      ensures Valid() && pc == if fine then ReadExpected(fact) else Ended(false)
    {
      var luck := Lucky();
      fine := luck.Fine? && ForPackager(fact);
      var found := true;
      ghost var w1 := w;
      if fine {
        match fact {
          case Planned(expected) =>
            db.StoreExpected(job.video, expected);
            w1 := Write(w, Op.RecordExpected(job.video, expected));
          case Ready(r, key) =>
            found := db.StorePlaylist(job.video, r, key);
            w1 := Write(w, Op.RecordPlaylist(job.video, r, key));
          case _ =>
        }
      }
      Note(w, w1, if fine then Fine else Raises);
      fine := fine && found;
    }

    /** The two repository calls of either branch: record, then ask what is ready. None ends the handler
        without packaging, normally if `ok`. */
    method RecordAndAsk(fact: Message) returns (ok: bool, names: Option<seq<Rendition>>)
      requires Valid() && pc == RecordFact(fact)
      modifies this`luck, this`moves, this`pc, this`w, db
      ensures Valid() && pc == if names.None? then Ended(ok) else CheckMaster(fact, names.value)
      ensures names.Some? ==> names.value == InTextOrder(ExpectedOf(w.table, job.video))
      ensures ok && names.None? ==> Unready(w.table, job.video)
    {
      names := None;
      ok := Record(fact);
      if !ok {
        return;
      }
      ok, names := Ask(fact);
    }

    method Ask(fact: Message) returns (ok: bool, names: Option<seq<Rendition>>)
      requires Valid() && pc == ReadExpected(fact)
      modifies this`luck, this`moves, this`pc, this`w
      ensures Valid() && w == old(w) && pc == if names.None? then Ended(ok) else CheckMaster(fact, names.value)
      ensures names.Some? ==> names.value == InTextOrder(ExpectedOf(w.table, job.video))
      ensures ok && names.None? ==> Unready(w.table, job.video)
    {
      names := None;
      var luck := Lucky();
      ok := luck.Fine?;
      var expected := db.ReadExpected(job.video);
      Note(w, w, if ok then Fine else Raises);
      if ok && expected != [] {
        ok, names := AskRows(fact, expected);
      }
    }

    method AskRows(fact: Message, expected: seq<string>) returns (ok: bool, names: Option<seq<Rendition>>)
      requires Valid() && pc == ReadRows(fact, expected) && expected == ExpectedOf(w.table, job.video)
      modifies this`luck, this`moves, this`pc, this`w
      ensures Valid() && w == old(w) && pc == if names.None? then Ended(ok) else CheckMaster(fact, names.value)
      ensures names.Some? ==> names.value == InTextOrder(expected)
      ensures ok && names.None? ==> Unready(w.table, job.video)
    {
      var luck := Lucky();
      ok := luck.Fine?;
      var playlists := db.ReadPlaylists(job.video, expected);
      var wanted := set r | r in expected;
      var ready := playlists.Keys == wanted;
      SameKeys(w.table, job.video, expected, playlists.Keys, wanted);
      Note(w, w, if ok then Fine else Raises);
      names := if ok && ready then Some(InTextOrder(expected)) else None;
    }

    /** A normal return means: a fact is still missing, or the announcement was handed to the producer (and is
        out if the flush drained), or the claim is live and somebody else's. */
    method Package(fact: Message) returns (ok: bool, ghost drained: bool)
      requires Shared()
      modifies this, bucket, db
      ensures Valid() && SameRun(old(w), RecordFact(fact)) && pc == Ended(ok)
      ensures ok ==>
                var done := DoneMessage(job, InTextOrder(ExpectedOf(w.table, job.video)));
                || Unready(w.table, job.video)
                || (done in w.held && (drained ==> done in w.published))
                || !WinsPackaging(w.table, job.video, w.now)
    {
      drained := false;
      Enter(RecordFact(fact));
      var names;
      ok, names := RecordAndAsk(fact);
      if names.Some? {
        ok, drained := TryPackage(fact, names.value);
      }
    }
  }

  /** Some fact of the join is missing. */
  ghost predicate Unready(t: Table, video: string) {
    ExpectedOf(t, video) == [] || exists r :: r in ExpectedOf(t, video) && !HasPlaylist(t, video, r)
  }

  lemma SameKeys(t: Table, video: string, expected: seq<string>, found: set<string>, wanted: set<string>)
    requires forall r :: r in found <==> r in expected && HasPlaylist(t, video, r)
    requires forall r :: r in wanted <==> r in expected
    ensures found == wanted <==> forall r :: r in expected ==> HasPlaylist(t, video, r)
  {
    if forall r :: r in expected ==> HasPlaylist(t, video, r) {
      assert forall r :: r in found <==> r in wanted;
    }
  }

  /** The plan and one request for each of its renditions. */
  ghost predicate AllOf(j: Job, messages: set<Message>) {
    Planned(j.ladder) in messages && forall i :: 0 <= i < |j.ladder| ==> Requested(j.ladder[i]) in messages
  }

  function FirstMessages(j: Job, k: nat): set<Message>
    requires k <= |j.ladder| + 1
  {
    if k == 0 then {} else FirstMessages(j, k - 1) + {ProbeMessage(j, k - 1)}
  }

  lemma {:induction false} AllSent(j: Job, w: World, k: nat)
    requires k <= |j.ladder| + 1
    ensures var w' := SendFirst(j, w, k);
            w' == w.(held := w.held + FirstMessages(j, k), published := w.published + FirstMessages(j, k), pending := w'.pending)
  {
    if k > 0 {
      AllSent(j, w, k - 1);
      assert w.held + FirstMessages(j, k - 1) + {ProbeMessage(j, k - 1)} == w.held + FirstMessages(j, k);
      assert w.published + FirstMessages(j, k - 1) + {ProbeMessage(j, k - 1)} == w.published + FirstMessages(j, k);
    } else {
      assert w.held + {} == w.held && w.published + {} == w.published;
    }
  }

  lemma {:induction false} FirstAre(j: Job, k: nat, m: Message)
    requires k <= |j.ladder| + 1
    ensures m in FirstMessages(j, k) <==> exists i :: 0 <= i < k && m == ProbeMessage(j, i)
  {
    if k > 0 {
      FirstAre(j, k - 1, m);
    }
  }

  lemma PlanIs(j: Job, plan: set<Message>)
    requires plan == {Planned(j.ladder)} + (set i | 0 <= i < |j.ladder| :: Requested(j.ladder[i]))
    ensures plan == FirstMessages(j, |j.ladder| + 1) && AllOf(j, plan)
  {
    var n := |j.ladder| + 1;
    forall m
      ensures m in plan <==> m in FirstMessages(j, n)
    {
      FirstAre(j, n, m);
      if i :| 0 <= i < |j.ladder| && m == Requested(j.ladder[i]) {
        assert m == ProbeMessage(j, i + 1);
      }
      if m == Planned(j.ladder) {
        assert m == ProbeMessage(j, 0);
      }
    }
  }

  lemma SentIsPlan(j: Job, w: World, plan: set<Message>)
    requires plan == {Planned(j.ladder)} + (set i | 0 <= i < |j.ladder| :: Requested(j.ladder[i]))
    ensures var w' := SendFirst(j, w, |j.ladder| + 1);
            && w' == w.(held := w.held + plan, published := w.published + plan, pending := w'.pending)
            && AllOf(j, w'.published)
  {
    AllSent(j, w, |j.ladder| + 1);
    PlanIs(j, plan);
  }
}
