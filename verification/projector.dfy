/** The projector: one transaction per event, and what replaying a partition does to the tables
    (backend/services/projector/main.py, backend/libs/pipeline/repository.py, ProjectorRepository). */
module Projector {
  import opened Text
  import opened Folds
  import opened Tables

  datatype Logged = Logged(rowId: nat, event: Event)

  datatype Db = Db(table: Table, events: seq<Logged>, nextId: nat)

  predicate Known(events: seq<Logged>, id: string) {
    exists i :: 0 <= i < |events| && events[i].event.id == id
  }

  /** `INSERT ... ON CONFLICT (event_id) DO NOTHING`; the id sequence advances either way. */
  function Appended(db: Db, e: Event): Db {
    db.(events := if Known(db.events, e.id) then db.events else db.events + [Logged(db.nextId, e)],
        nextId := db.nextId + 1)
  }

  /** One event's transaction. Without the video's row the foreign key refuses it and nothing changes. */
  function Transaction(db: Db, e: Event): Db {
    if HasVideo(db.table, e.video) then Appended(db.(table := Projected(db.table, e)), e) else db
  }

  // ---------------------------------------------------------------- the repository

  class ProjectorRepository {
    var table: Table
    var events: seq<Logged>
    var nextId: nat

    constructor (db: Db)
      ensures View() == db
    {
      table, events, nextId := db.table, db.events, db.nextId;
    }

    function View(): Db
      reads this
    {
      Db(table, events, nextId)
    }

    /** The source's loop: the state, then every optional field the event carries. */
    method StatusValues(e: Event) returns (values: map<VideoColumn, Value>)
      requires e.StatusChanged?
      ensures forall col :: col in values <==> col == Status || (col in STATUS_FIELDS && Field(e, col).Some?)
      ensures values[Status] == Str(e.state)
      ensures forall col :: col in values && col != Status ==> Field(e, col) == Some(values[col])
    {
      values := map[Status := Str(e.state)];
      for i := 0 to |STATUS_FIELDS|
        invariant forall col :: col in values <==> col == Status || (col in STATUS_FIELDS[..i] && Field(e, col).Some?)
        invariant values[Status] == Str(e.state)
        invariant forall col :: col in values && col != Status ==> Field(e, col) == Some(values[col])
      {
        var value := Field(e, STATUS_FIELDS[i]);
        assert STATUS_FIELDS[i] != Status;
        assert STATUS_FIELDS[..i + 1] == STATUS_FIELDS[..i] + [STATUS_FIELDS[i]];
        if value.Some? {
          values := values[STATUS_FIELDS[i] := value.value];
        }
      }
      assert STATUS_FIELDS[..|STATUS_FIELDS|] == STATUS_FIELDS;
    }

    method UpdateVideo(e: Event, values: map<VideoColumn, Value>)
      requires forall col :: col in values ==> col != VideoRow && col != VideoOwner
      modifies this`table
      ensures table == if OwnedBy(old(table), e.video, e.owner)
                       then old(table) + CellsOf(e.video, values) else old(table)
    {
      if OwnedBy(table, e.video, e.owner) {
        table := table + CellsOf(e.video, values);
      }
    }

    method UpsertRendition(e: Event)
      modifies this`table
      ensures table == Upserted(old(table), e) + RenditionWrites(e)
    {
      if TouchesRendition(e) {
        table := AddRow(table, e.video, e.rendition.value, e.owner);
        table := table + RenditionWrites(e);
      }
    }

    method AppendEvent(e: Event)
      modifies this
      ensures View() == Appended(old(View()), e)
    {
      if !Known(events, e.id) {
        events := events + [Logged(nextId, e)];
      }
      nextId := nextId + 1;
    }

    method ApplyStatus(e: Event)
      requires e.StatusChanged?
      modifies this`table
      ensures table == Projected(old(table), e)
    {
      var values := StatusValues(e);
      ValuesAreWrites(e, values);
      UpdateAndUpsert(e, values);
    }

    /** The end both kinds of event share. */
    method UpdateAndUpsert(e: Event, values: map<VideoColumn, Value>)
      requires forall col :: col in values ==> col != VideoRow && col != VideoOwner
      requires CellsOf(e.video, values) == VideoWrites(e)
      modifies this`table
      ensures table == Projected(old(table), e)
    {
      ghost var before := table;
      UpdateVideo(e, values);
      UpdatedFirst(before, table, e);
      UpsertRendition(e);
    }

    method ApplyFailure(e: Event)
      requires e.Failed?
      modifies this`table
      ensures table == Projected(old(table), e)
    {
      var values := map[Status := Str(FAILED), FailureReason := Str(e.reason)];
      assert CellsOf(e.video, values) == VideoWrites(e);
      UpdateAndUpsert(e, values);
    }

    /** The handler: commits everything or nothing. `violates` is a constraint other than the video's foreign
        key, and false stands for the TerminalError a violation becomes; an id drawn by a transaction that is
        rolled back stays drawn. */
    method Handle(e: Event, violates: bool) returns (applied: bool)
      modifies this
      ensures applied <==> HasVideo(old(table), e.video) && !violates
      ensures applied ==> View() == Transaction(old(View()), e)
      ensures !applied ==> table == old(table) && events == old(events) && nextId >= old(nextId)
    {
      if !HasVideo(table, e.video) {
        return false;
      }
      var tableBefore, eventsBefore := table, events;
      if e.StatusChanged? {
        ApplyStatus(e);
      } else {
        ApplyFailure(e);
      }
      AppendEvent(e);
      if violates {
        table, events := tableBefore, eventsBefore;
        return false;
      }
      applied := true;
    }
  }

  function CellsOf(video: string, values: map<VideoColumn, Value>): Table {
    map col | col in values :: V(video, col) := values[col]
  }

  lemma ValuesAreWrites(e: Event, values: map<VideoColumn, Value>)
    requires e.StatusChanged?
    requires forall col :: col in values <==> col == Status || (col in STATUS_FIELDS && Field(e, col).Some?)
    requires values[Status] == Str(e.state)
    requires forall col :: col in values && col != Status ==> Field(e, col) == Some(values[col])
    ensures CellsOf(e.video, values) == VideoWrites(e)
  {
    assert Status !in STATUS_FIELDS;
    var a, b := CellsOf(e.video, values), VideoWrites(e);
    forall c
      ensures c in a <==> c in b
      ensures c in a ==> a[c] == b[c]
    {
    }
  }

  lemma VideoFirstWith(t: Table, e: Event, a: Table, b: Table)
    requires forall c :: c in a ==> c.V?
    ensures Upserted(t + a, e) + b == Upserted(t, e) + (a + b)
  {
    if TouchesRendition(e) {
      AddRowAfterWrites(t, a, e.video, e.rendition.value, e.owner);
    }
    assert Upserted(t + a, e) == Upserted(t, e) + a;
  }

  lemma UpdatedFirst(t: Table, t': Table, e: Event)
    requires t' == if OwnedBy(t, e.video, e.owner) then t + VideoWrites(e) else t
    ensures Upserted(t', e) + RenditionWrites(e) == Projected(t, e)
  {
    var writes := if OwnedBy(t, e.video, e.owner) then VideoWrites(e) else map[];
    assert t + writes == t';
    VideoFirst(t, e, writes);
  }

  /** Updating the video before adding the rendition's row is the same as after. */
  lemma VideoFirst(t: Table, e: Event, a: Table)
    requires a == if OwnedBy(t, e.video, e.owner) then VideoWrites(e) else map[]
    ensures Upserted(t + a, e) + RenditionWrites(e) == Projected(t, e)
  {
    VideoFirstWith(t, e, a, RenditionWrites(e));
  }

  // ------------------------------------------------------- what an event stores, by column

  lemma ColumnAfter(t: Table, e: Event, video: string, col: VideoColumn)
    requires col != VideoRow && col != VideoOwner
    ensures var c := V(video, col);
            Held(Projected(t, e), c)
            == if OwnedBy(t, e.video, e.owner) && c in VideoWrites(e) then Some(VideoWrites(e)[c]) else Held(t, c)
  {
    var w := EventWrites(e, OwnedBy(t, e.video, e.owner));
    assert V(video, col) !in RenditionWrites(e);
    UpsertedCell(t, e, w, V(video, col));
    UpsertKeepsVideos(t, e, V(video, col));
  }

  lemma UpsertKeepsVideos(t: Table, e: Event, c: Cell)
    requires c.V?
    ensures Held(Upserted(t, e), c) == Held(t, c)
  {
  }

  lemma StatusFieldsAre()
    ensures forall col: VideoColumn :: col in STATUS_FIELDS <==>
              col in {DurationS, Width, Height, ExpectedRenditions, PosterKey, SpriteKey, VttKey, MasterPlaylistKey}
  {
    assert STATUS_FIELDS == [DurationS, Width, Height, ExpectedRenditions] + [PosterKey, SpriteKey, VttKey, MasterPlaylistKey];
  }

  lemma WriteOf(e: Event, col: VideoColumn)
    requires e.StatusChanged?
    ensures Held(VideoWrites(e), V(e.video, col))
            == if col == Status then Some(Str(e.state))
               else if col in {DurationS, Width, Height, ExpectedRenditions, PosterKey, SpriteKey, VttKey, MasterPlaylistKey} then Field(e, col)
               else None
  {
    StatusFieldsAre();
  }

  function OrElse(new_: Option<Value>, old_: Option<Value>): Option<Value> {
    if new_.Some? then new_ else old_
  }

  lemma WriteOrKeep(t: Table, e: Event, col: VideoColumn)
    requires OwnedBy(t, e.video, e.owner) && col != VideoRow && col != VideoOwner
    ensures Held(Projected(t, e), V(e.video, col)) == OrElse(Held(VideoWrites(e), V(e.video, col)), Held(t, V(e.video, col)))
  {
    ColumnAfter(t, e, e.video, col);
  }

  lemma FieldStored(t: Table, e: Event, col: VideoColumn)
    requires e.StatusChanged? && OwnedBy(t, e.video, e.owner)
    requires col in {DurationS, Width, Height, ExpectedRenditions, PosterKey, SpriteKey, VttKey, MasterPlaylistKey}
    ensures Held(Projected(t, e), V(e.video, col)) == OrElse(Field(e, col), Held(t, V(e.video, col)))
  {
    WriteOf(e, col);
    WriteOrKeep(t, e, col);
  }

  lemma NoFieldStored(t: Table, e: Event, col: VideoColumn)
    requires e.StatusChanged? && OwnedBy(t, e.video, e.owner)
    requires col in {Status, FailureReason, PackagerExpected, PackagingClaimedAt}
    ensures Held(Projected(t, e), V(e.video, col)) == if col == Status then Some(Str(e.state)) else Held(t, V(e.video, col))
  {
    WriteOf(e, col);
    WriteOrKeep(t, e, col);
  }

  /** The video is there, and its owner cell holds exactly this owner. */
  predicate IsOwners(t: Table, video: string, owner: string) {
    Held(t, V(video, VideoRow)).Some? && Held(t, V(video, VideoOwner)) == Some(Str(owner))
  }

  /** A status event on its owner's video: the status column takes its state; each optional column takes the
      event's own value for it if there is one and otherwise keeps what it had; nothing else of the video
      changes. */
  lemma StatusStored(t: Table, e: Event)
    requires e.StatusChanged? && IsOwners(t, e.video, e.owner)
    ensures var t', v := Projected(t, e), e.video;
            && Held(t', V(v, Status)) == Some(Str(e.state))
            && Held(t', V(v, DurationS)) == (if e.duration.Some? then Some(Seconds(e.duration.value)) else Held(t, V(v, DurationS)))
            && Held(t', V(v, Width)) == (if e.width.Some? then Some(Num(e.width.value)) else Held(t, V(v, Width)))
            && Held(t', V(v, Height)) == (if e.height.Some? then Some(Num(e.height.value)) else Held(t, V(v, Height)))
            && Held(t', V(v, ExpectedRenditions)) == (if e.expected.Some? then Some(Names(e.expected.value)) else Held(t, V(v, ExpectedRenditions)))
            && Held(t', V(v, FailureReason)) == Held(t, V(v, FailureReason))
  {
    NoFieldStored(t, e, Status);
    FieldStored(t, e, DurationS);
    FieldStored(t, e, Width);
    FieldStored(t, e, Height);
    FieldStored(t, e, ExpectedRenditions);
    NoFieldStored(t, e, FailureReason);
  }

  lemma KeyFields(e: Event)
    requires e.StatusChanged?
    ensures Field(e, PosterKey) == (if e.poster.Some? then Some(Str(e.poster.value)) else None)
    ensures Field(e, SpriteKey) == (if e.sprite.Some? then Some(Str(e.sprite.value)) else None)
    ensures Field(e, VttKey) == (if e.vtt.Some? then Some(Str(e.vtt.value)) else None)
    ensures Field(e, MasterPlaylistKey) == (if e.master.Some? then Some(Str(e.master.value)) else None)
  {
  }

  /** The same for its object keys; the packager's columns are not the projector's. */
  lemma StatusKeysStored(t: Table, e: Event)
    requires e.StatusChanged? && IsOwners(t, e.video, e.owner)
    ensures var t', v := Projected(t, e), e.video;
            && Held(t', V(v, PosterKey)) == (if e.poster.Some? then Some(Str(e.poster.value)) else Held(t, V(v, PosterKey)))
            && Held(t', V(v, SpriteKey)) == (if e.sprite.Some? then Some(Str(e.sprite.value)) else Held(t, V(v, SpriteKey)))
            && Held(t', V(v, VttKey)) == (if e.vtt.Some? then Some(Str(e.vtt.value)) else Held(t, V(v, VttKey)))
            && Held(t', V(v, MasterPlaylistKey)) == (if e.master.Some? then Some(Str(e.master.value)) else Held(t, V(v, MasterPlaylistKey)))
  {
    KeyFields(e);
    FieldStored(t, e, PosterKey);
    FieldStored(t, e, SpriteKey);
    FieldStored(t, e, VttKey);
    FieldStored(t, e, MasterPlaylistKey);
  }

  lemma PackagersNotStored(t: Table, e: Event)
    requires e.StatusChanged? && IsOwners(t, e.video, e.owner)
    ensures Held(Projected(t, e), V(e.video, PackagerExpected)) == Held(t, V(e.video, PackagerExpected))
    ensures Held(Projected(t, e), V(e.video, PackagingClaimedAt)) == Held(t, V(e.video, PackagingClaimedAt))
  {
    NoFieldStored(t, e, PackagerExpected);
    NoFieldStored(t, e, PackagingClaimedAt);
  }

  /** A failure on its owner's video: the literal status and the reason, and nothing else of the video. */
  lemma FailureStored(t: Table, e: Event, col: VideoColumn)
    requires e.Failed? && IsOwners(t, e.video, e.owner) && col != VideoRow && col != VideoOwner
    ensures Held(Projected(t, e), V(e.video, col))
            == (if col == Status then Some(Str("failed")) else if col == FailureReason then Some(Str(e.reason)) else Held(t, V(e.video, col)))
  {
    WriteOrKeep(t, e, col);
  }

  /** Somebody else's video, and every other video, is left alone. */
  lemma OthersNotStored(t: Table, e: Event, video: string, col: VideoColumn)
    requires col != VideoRow && col != VideoOwner && (video != e.video || !IsOwners(t, e.video, e.owner))
    ensures Held(Projected(t, e), V(video, col)) == Held(t, V(video, col))
  {
    ColumnAfter(t, e, video, col);
  }

  lemma RenditionCellAfter(t: Table, e: Event, r: string, col: RenditionColumn)
    requires IsState(R(e.video, r, col))
    ensures var c := R(e.video, r, col);
            Held(Projected(t, e), c) == OrElse(Held(RenditionWrites(e), c), Held(t, c))
  {
    var owned := OwnedBy(t, e.video, e.owner);
    assert R(e.video, r, col) !in VideoWrites(e);
    UpsertedCell(t, e, EventWrites(e, owned), R(e.video, r, col));
  }

  /** A status event that names a rendition and its object, whoever owns the video: the row is completed with
      the event's keys. Without either, the row keeps everything. */
  lemma CompletionStored(t: Table, e: Event, r: string)
    requires e.StatusChanged?
    ensures var t', v := Projected(t, e), e.video; var hit := e.rendition == Some(r) && e.renditionObjectKey.Some?;
            && Held(t', R(v, r, RenditionStatus)) == (if hit then Some(Str("completed")) else Held(t, R(v, r, RenditionStatus)))
            && Held(t', R(v, r, ObjectKey)) == (if hit then Some(Str(e.renditionObjectKey.value)) else Held(t, R(v, r, ObjectKey)))
            && Held(t', R(v, r, PlaylistKey)) == (if hit && e.renditionPlaylistKey.Some? then Some(Str(e.renditionPlaylistKey.value)) else Held(t, R(v, r, PlaylistKey)))
            && Held(t', R(v, r, RenditionFailure)) == Held(t, R(v, r, RenditionFailure))
            && (hit ==> HasRendition(t', v, r))
            && Held(t', R(v, r, RenditionOwner)) == (if hit && R(v, r, RenditionRow) !in t then Some(Str(e.owner)) else Held(t, R(v, r, RenditionOwner)))
  {
    UpsertedCell(t, e, EventWrites(e, OwnedBy(t, e.video, e.owner)), R(e.video, r, RenditionOwner));
    CompletionWrites(e, r);
    RenditionCellAfter(t, e, r, RenditionStatus);
    RenditionCellAfter(t, e, r, ObjectKey);
    RenditionCellAfter(t, e, r, PlaylistKey);
    RenditionCellAfter(t, e, r, RenditionFailure);
    if e.rendition == Some(r) && e.renditionObjectKey.Some? {
      UpsertedCell(t, e, EventWrites(e, OwnedBy(t, e.video, e.owner)), R(e.video, r, RenditionRow));
    }
  }

  lemma CompletionWrites(e: Event, r: string)
    requires e.StatusChanged?
    ensures var w, v := RenditionWrites(e), e.video; var hit := e.rendition == Some(r) && e.renditionObjectKey.Some?;
            && Held(w, R(v, r, RenditionStatus)) == (if hit then Some(Str("completed")) else None)
            && Held(w, R(v, r, ObjectKey)) == (if hit then Some(Str(e.renditionObjectKey.value)) else None)
            && Held(w, R(v, r, PlaylistKey)) == (if hit && e.renditionPlaylistKey.Some? then Some(Str(e.renditionPlaylistKey.value)) else None)
            && Held(w, R(v, r, RenditionFailure)) == None
  {
  }

  /** A failure that names a rendition. */
  lemma RenditionFailureStored(t: Table, e: Event, r: string)
    requires e.Failed?
    ensures var t', v := Projected(t, e), e.video; var hit := e.rendition == Some(r);
            && Held(t', R(v, r, RenditionStatus)) == (if hit then Some(Str("failed")) else Held(t, R(v, r, RenditionStatus)))
            && Held(t', R(v, r, RenditionFailure)) == (if hit then Some(Str(e.reason)) else Held(t, R(v, r, RenditionFailure)))
            && Held(t', R(v, r, ObjectKey)) == Held(t, R(v, r, ObjectKey))
            && Held(t', R(v, r, PlaylistKey)) == Held(t, R(v, r, PlaylistKey))
            && (hit ==> HasRendition(t', v, r))
            && Held(t', R(v, r, RenditionOwner)) == (if hit && R(v, r, RenditionRow) !in t then Some(Str(e.owner)) else Held(t, R(v, r, RenditionOwner)))
  {
    UpsertedCell(t, e, EventWrites(e, OwnedBy(t, e.video, e.owner)), R(e.video, r, RenditionOwner));
    RenditionCellAfter(t, e, r, RenditionStatus);
    RenditionCellAfter(t, e, r, RenditionFailure);
    RenditionCellAfter(t, e, r, ObjectKey);
    RenditionCellAfter(t, e, r, PlaylistKey);
    if e.rendition == Some(r) {
      UpsertedCell(t, e, EventWrites(e, OwnedBy(t, e.video, e.owner)), R(e.video, r, RenditionRow));
    }
  }

  /** The events table after one event: one row more, with the next id, unless its video has no row or its
      event id is there already. */
  lemma RowAppended(db: Db, e: Event)
    ensures var db', there := Transaction(db, e), V(e.video, VideoRow) in db.table;
            && db'.nextId == db.nextId + (if there then 1 else 0)
            && db'.events == if there && forall row :: row in db.events ==> row.event.id != e.id
                             then db.events + [Logged(db.nextId, e)] else db.events
  {
  }

  // ------------------------------------------------------------------- crash replay

  /** What one event's transaction does to the rows. */
  function Projection(t: Table, e: Event): Table {
    if HasVideo(t, e.video) then Projected(t, e) else t
  }

  /** The plain fold: every event of a log once, in order. */
  function FoldTable(t0: Table, es: seq<Event>): Table {
    Fold(Projection, t0, es)
  }

  /** The columns an event sets in a database whose video rows are those of `t0`. */
  function Written(t0: Table, e: Event): (w: Table)
    ensures forall c :: c in w ==> IsState(c)
  {
    if HasVideo(t0, e.video) then EventWrites(e, OwnedBy(t0, e.video, e.owner)) else map[]
  }

  ghost predicate SameVideos(t: Table, t0: Table) {
    && (forall v :: HasVideo(t, v) == HasVideo(t0, v))
    && (forall v, o :: OwnedBy(t, v, o) == OwnedBy(t0, v, o))
  }

  ghost predicate MakesRow(t0: Table, e: Event, v: string, r: string) {
    HasVideo(t0, e.video) && TouchesRendition(e) && e.video == v && e.rendition.value == r
  }

  lemma UpsertedCells(t: Table, e: Event, w: Table)
    requires forall c :: c in w ==> IsState(c)
    ensures forall c :: IsState(c) ==> Held(Upserted(t, e) + w, c) == if c in w then Some(w[c]) else Held(t, c)
    ensures forall c :: !IsState(c) ==> Held(Upserted(t, e) + w, c) == Held(Upserted(t, e), c)
  {
  }

  lemma UpsertedCell(t: Table, e: Event, w: Table, c: Cell)
    requires forall c :: c in w ==> IsState(c)
    ensures Held(Upserted(t, e) + w, c) == if c in w then Some(w[c]) else if IsState(c) then Held(t, c) else Held(Upserted(t, e), c)
  {
    UpsertedCells(t, e, w);
  }

  lemma UpsertedVideos(t: Table, t0: Table, e: Event, w: Table)
    requires SameVideos(t, t0) && forall c :: c in w ==> IsState(c)
    ensures SameVideos(Upserted(t, e) + w, t0)
  {
    forall v
      ensures HasVideo(Upserted(t, e) + w, v) == HasVideo(t0, v)
    {
      assert V(v, VideoRow) !in w && HasVideo(t, v) == HasVideo(t0, v);
    }
    forall v, o
      ensures OwnedBy(Upserted(t, e) + w, v, o) == OwnedBy(t0, v, o)
    {
      assert V(v, VideoRow) !in w && V(v, VideoOwner) !in w;
      assert OwnedBy(t, v, o) == OwnedBy(t0, v, o);
    }
  }

  /** The event's effect, cell by cell. */
  lemma ProjectionCells(t: Table, t0: Table, e: Event)
    requires SameVideos(t, t0)
    ensures SameVideos(Projection(t, e), t0)
    ensures forall c :: IsState(c) ==>
              Held(Projection(t, e), c) == if c in Written(t0, e) then Some(Written(t0, e)[c]) else Held(t, c)
    ensures forall c :: !IsState(c) ==>
              Held(Projection(t, e), c) == Held(if HasVideo(t0, e.video) then Upserted(t, e) else t, c)
  {
    assert HasVideo(t, e.video) == HasVideo(t0, e.video);
    assert OwnedBy(t, e.video, e.owner) == OwnedBy(t0, e.video, e.owner);
    if HasVideo(t, e.video) {
      UpsertedCells(t, e, Written(t0, e));
      UpsertedVideos(t, t0, e, Written(t0, e));
    }
  }

  lemma ProjectedCell(t: Table, t0: Table, e: Event, c: Cell)
    requires SameVideos(t, t0) && IsState(c)
    ensures Held(Projection(t, e), c) == if c in Written(t0, e) then Some(Written(t0, e)[c]) else Held(t, c)
  {
    ProjectionCells(t, t0, e);
  }

  lemma {:induction false} FoldKeepsVideos(t0: Table, es: seq<Event>)
    ensures SameVideos(FoldTable(t0, es), t0)
  {
    if es != [] {
      FoldKeepsVideos(t0, es[..|es| - 1]);
      ProjectionCells(FoldTable(t0, es[..|es| - 1]), t0, es[|es| - 1]);
    }
  }

  lemma RowMade(t: Table, t0: Table, e: Event, v: string, r: string)
    requires SameVideos(t, t0) && (MakesRow(t0, e, v, r) || HasRendition(t, v, r))
    ensures HasRendition(Projection(t, e), v, r)
  {
    ProjectionCells(t, t0, e);
    assert Held(Projection(t, e), R(v, r, RenditionRow)) == Held(if HasVideo(t0, e.video) then Upserted(t, e) else t, R(v, r, RenditionRow));
  }

  /** Every row an event of the log makes is there at the end. */
  lemma {:induction false} RowsMade(t0: Table, es: seq<Event>, p: nat, v: string, r: string)
    requires p < |es| && MakesRow(t0, es[p], v, r)
    ensures HasRendition(FoldTable(t0, es), v, r)
  {
    var init := es[..|es| - 1];
    FoldKeepsVideos(t0, init);
    if p < |init| {
      RowsMade(t0, init, p, v, r);
    }
    RowMade(FoldTable(t0, init), t0, es[|es| - 1], v, r);
  }

  ghost predicate Unwritten(t0: Table, es: seq<Event>, from: nat, to: nat, c: Cell)
    requires to <= |es|
  {
    forall i :: from <= i < to ==> c !in Written(t0, es[i])
  }

  /** A column's final value is the one its last writer gave it. */
  lemma {:induction false} LastWriterWins(t0: Table, es: seq<Event>, p: nat, c: Cell)
    requires p < |es| && c in Written(t0, es[p]) && Unwritten(t0, es, p + 1, |es|, c)
    ensures Held(FoldTable(t0, es), c) == Some(Written(t0, es[p])[c])
  {
    var init, last := es[..|es| - 1], es[|es| - 1];
    FoldKeepsVideos(t0, init);
    ProjectedCell(FoldTable(t0, init), t0, last, c);
    if p < |init| {
      assert c !in Written(t0, last);
      assert forall i :: p + 1 <= i < |init| ==> init[i] == es[i];
      LastWriterWins(t0, init, p, c);
    }
  }

  // The events table.

  predicate StoredBefore(t0: Table, es: seq<Event>, id: string) {
    exists i :: 0 <= i < |es| && HasVideo(t0, es[i].video) && es[i].id == id
  }

  /** A log with only the first event of each id, of the events whose video exists. */
  function Once(t0: Table, es: seq<Event>): seq<Event> {
    if es == [] then []
    else
      var init, last := es[..|es| - 1], es[|es| - 1];
      Once(t0, init) + (if HasVideo(t0, last.video) && !StoredBefore(t0, init, last.id) then [last] else [])
  }

  predicate HasId(es: seq<Event>, id: string) {
    exists i :: 0 <= i < |es| && es[i].id == id
  }

  lemma HasIdSplit(a: seq<Event>, b: seq<Event>, id: string)
    ensures HasId(a + b, id) <==> HasId(a, id) || HasId(b, id)
  {
    if HasId(a, id) {
      var i :| 0 <= i < |a| && a[i].id == id;
      assert (a + b)[i].id == id;
    }
    if HasId(b, id) {
      var i :| 0 <= i < |b| && b[i].id == id;
      assert (a + b)[|a| + i].id == id;
    }
  }

  lemma StoredSplit(t0: Table, es: seq<Event>, id: string)
    requires es != []
    ensures var last := es[|es| - 1];
            StoredBefore(t0, es, id) <==> StoredBefore(t0, es[..|es| - 1], id) || (HasVideo(t0, last.video) && last.id == id)
  {
    var init := es[..|es| - 1];
    if StoredBefore(t0, init, id) {
      var i :| 0 <= i < |init| && HasVideo(t0, init[i].video) && init[i].id == id;
      assert es[i] == init[i];
    }
    if StoredBefore(t0, es, id) {
      var i :| 0 <= i < |es| && HasVideo(t0, es[i].video) && es[i].id == id;
      assert i < |init| ==> init[i] == es[i];
    }
  }

  lemma {:induction false} OnceHasIds(t0: Table, es: seq<Event>, id: string)
    ensures HasId(Once(t0, es), id) <==> StoredBefore(t0, es, id)
  {
    if es != [] {
      var init, last := es[..|es| - 1], es[|es| - 1];
      OnceHasIds(t0, init, id);
      StoredSplit(t0, es, id);
      HasIdSplit(Once(t0, init), [last], id);
      assert [last][0] == last;
      assert Once(t0, init) + [] == Once(t0, init);
    }
  }

  ghost predicate DistinctIds(es: seq<Event>) {
    forall i, j :: 0 <= i < j < |es| ==> es[i].id != es[j].id
  }

  /** Each event id appears once. */
  lemma {:induction false} OnceIsOnce(t0: Table, es: seq<Event>)
    ensures DistinctIds(Once(t0, es))
  {
    if es != [] {
      var init, last := es[..|es| - 1], es[|es| - 1];
      OnceIsOnce(t0, init);
      OnceHasIds(t0, init, last.id);
    }
  }

  function EventsOf(rows: seq<Logged>): (es: seq<Event>)
    ensures |es| == |rows| && forall i :: 0 <= i < |es| ==> es[i] == rows[i].event
  {
    seq(|rows|, i requires 0 <= i < |rows| => rows[i].event)
  }

  ghost predicate RowIdsRise(rows: seq<Logged>) {
    forall i, j :: 0 <= i < j < |rows| ==> rows[i].rowId < rows[j].rowId
  }

  ghost predicate Rising(rows: seq<Logged>, nextId: nat) {
    RowIdsRise(rows) && forall i :: 0 <= i < |rows| ==> rows[i].rowId < nextId
  }

  // One partition's consumer: it applies the next event, or a crash or a rebalance moves it back.

  datatype Replay = Replay(db: Db, pos: nat, high: nat)

  datatype Move = Next | Rewind(to: nat)

  function Moved(log: seq<Event>, s: Replay, m: Move): Replay {
    match m
    case Next =>
      if s.pos >= |log| then s
      else Replay(Transaction(s.db, log[s.pos]), s.pos + 1, if s.pos + 1 > s.high then s.pos + 1 else s.high)
    case Rewind(to) => if to < s.pos then s.(pos := to) else s
  }

  function RunReplay(log: seq<Event>, s: Replay, moves: seq<Move>): Replay {
    if moves == [] then s else Moved(log, RunReplay(log, s, moves[..|moves| - 1]), moves[|moves| - 1])
  }

  /** `t`, reached at `pos` having once been at `high`, against `final`, the plain fold of the prefix:
      the same rows, and the same columns except those the events between will write again. */
  ghost predicate Replaying(t0: Table, log: seq<Event>, t: Table, final: Table, pos: nat, high: nat)
    requires high <= |log|
  {
    && SameVideos(t, t0)
    && (forall c :: !IsState(c) ==> Held(t, c) == Held(final, c))
    && (forall c :: IsState(c) && Unwritten(t0, log, pos, high, c) ==> Held(t, c) == Held(final, c))
  }

  ghost predicate EventsKept(t0: Table, log: seq<Event>, db: Db, high: nat)
    requires high <= |log|
  {
    EventsOf(db.events) == Once(t0, log[..high]) && Rising(db.events, db.nextId)
  }

  ghost predicate ReplayInv(t0: Table, log: seq<Event>, s: Replay) {
    && s.pos <= s.high <= |log|
    && Replaying(t0, log, s.db.table, FoldTable(t0, log[..s.high]), s.pos, s.high)
    && EventsKept(t0, log, s.db, s.high)
  }

  lemma SameCells(a: Table, b: Table)
    requires forall c :: Held(a, c) == Held(b, c)
    ensures a == b
  {
    forall c
      ensures c in a <==> c in b
      ensures c in a ==> a[c] == b[c]
    {
      assert Held(a, c) == Held(b, c);
    }
  }

  /** An event already in the prefix finds its row. */
  lemma NoNewRow(t0: Table, log: seq<Event>, t: Table, pos: nat, high: nat)
    requires pos < high <= |log| && HasVideo(t0, log[pos].video)
    requires forall c :: !IsState(c) ==> Held(t, c) == Held(FoldTable(t0, log[..high]), c)
    ensures Upserted(t, log[pos]) == t
  {
    var e := log[pos];
    if TouchesRendition(e) {
      var v, r := e.video, e.rendition.value;
      assert log[..high][pos] == e;
      RowsMade(t0, log[..high], pos, v, r);
      assert Held(t, R(v, r, RenditionRow)) == Held(FoldTable(t0, log[..high]), R(v, r, RenditionRow));
    }
  }

  /** A column the event writes becomes what its last writer leaves; another is as it was. */
  lemma CellReapplied(t0: Table, log: seq<Event>, t: Table, t': Table, pos: nat, high: nat, c: Cell)
    requires pos < high <= |log| && IsState(c) && Unwritten(t0, log, pos + 1, high, c)
    requires Held(t', c) == if c in Written(t0, log[pos]) then Some(Written(t0, log[pos])[c]) else Held(t, c)
    requires Unwritten(t0, log, pos, high, c) ==> Held(t, c) == Held(FoldTable(t0, log[..high]), c)
    ensures Held(t', c) == Held(FoldTable(t0, log[..high]), c)
  {
    if c in Written(t0, log[pos]) {
      var prefix := log[..high];
      assert prefix[pos] == log[pos];
      assert forall i :: pos + 1 <= i < high ==> prefix[i] == log[i];
      LastWriterWins(t0, prefix, pos, c);
    }
  }

  /** An event already in the prefix is applied again: its rows exist, and its columns become what their
      last writer among the events still to replay will leave. */
  lemma Reapplied(t0: Table, log: seq<Event>, t: Table, t': Table, pos: nat, high: nat)
    requires pos < high <= |log| && t' == Projection(t, log[pos])
    requires Replaying(t0, log, t, FoldTable(t0, log[..high]), pos, high)
    ensures Replaying(t0, log, t', FoldTable(t0, log[..high]), pos + 1, high)
  {
    ProjectionCells(t, t0, log[pos]);
    if HasVideo(t0, log[pos].video) {
      NoNewRow(t0, log, t, pos, high);
    }
    forall c | IsState(c) && Unwritten(t0, log, pos + 1, high, c)
      ensures Held(t', c) == Held(FoldTable(t0, log[..high]), c)
    {
      CellReapplied(t0, log, t, t', pos, high, c);
    }
  }

  lemma TransactionEvents(t0: Table, log: seq<Event>, db: Db, pos: nat, high: nat)
    requires pos <= high <= |log| && pos < |log| && SameVideos(db.table, t0) && EventsKept(t0, log, db, high)
    ensures EventsKept(t0, log, Transaction(db, log[pos]), if pos + 1 > high then pos + 1 else high)
  {
    var e := log[pos];
    var prefix := log[..high];
    assert HasVideo(db.table, e.video) == HasVideo(t0, e.video);
    OnceHasIds(t0, prefix, e.id);
    assert Known(db.events, e.id) == HasId(EventsOf(db.events), e.id);
    if pos < high {
      assert prefix[pos] == e;
    } else {
      assert log[..high + 1][..high] == prefix;
    }
    assert Transaction(db, e).events == db.events || EventsOf(Transaction(db, e).events) == EventsOf(db.events) + [e];
  }

  lemma MoveKeeps(t0: Table, log: seq<Event>, s: Replay, m: Move)
    requires ReplayInv(t0, log, s)
    ensures ReplayInv(t0, log, Moved(log, s, m))
  {
    if m.Next? && s.pos < |log| {
      TransactionEvents(t0, log, s.db, s.pos, s.high);
      assert Transaction(s.db, log[s.pos]).table == Projection(s.db.table, log[s.pos]);
      if s.pos < s.high {
        Reapplied(t0, log, s.db.table, Projection(s.db.table, log[s.pos]), s.pos, s.high);
      } else {
        CaughtUp(t0, log, s);
        FoldSnoc(Projection, t0, log[..s.high], log[s.high]);
        assert log[..s.high + 1] == log[..s.high] + [log[s.high]];
        ProjectionCells(s.db.table, t0, log[s.pos]);
      }
    } else if m.Rewind? && m.to < s.pos {
      forall c | Unwritten(t0, log, m.to, s.high, c)
        ensures Unwritten(t0, log, s.pos, s.high, c)
      {
      }
    }
  }

  lemma CaughtUp(t0: Table, log: seq<Event>, s: Replay)
    requires ReplayInv(t0, log, s) && s.pos == s.high
    ensures s.db.table == FoldTable(t0, log[..s.high])
  {
    forall c
      ensures Held(s.db.table, c) == Held(FoldTable(t0, log[..s.high]), c)
    {
      assert Unwritten(t0, log, s.pos, s.high, c);
    }
    SameCells(s.db.table, FoldTable(t0, log[..s.high]));
  }

  lemma {:induction false} RunKeeps(t0: Table, log: seq<Event>, nextId: nat, moves: seq<Move>)
    ensures ReplayInv(t0, log, RunReplay(log, Replay(Db(t0, [], nextId), 0, 0), moves))
  {
    if moves != [] {
      RunKeeps(t0, log, nextId, moves[..|moves| - 1]);
      MoveKeeps(t0, log, RunReplay(log, Replay(Db(t0, [], nextId), 0, 0), moves[..|moves| - 1]), moves[|moves| - 1]);
    }
  }

  /** Any number of rewinds, any log: the events table is always the prefix reached, each id once, in
      first-application order and with rising row ids; and back at the high-water mark, both tables of rows
      are what a single pass over the prefix leaves. */
  lemma CrashReplayRefines(t0: Table, log: seq<Event>, nextId: nat, moves: seq<Move>)
    ensures var s := RunReplay(log, Replay(Db(t0, [], nextId), 0, 0), moves);
            && s.pos <= s.high <= |log|
            && EventsOf(s.db.events) == Once(t0, log[..s.high])
            && DistinctIds(EventsOf(s.db.events))
            && Rising(s.db.events, s.db.nextId)
            && (s.pos == s.high ==> s.db.table == FoldTable(t0, log[..s.high]))
  {
    var s := RunReplay(log, Replay(Db(t0, [], nextId), 0, 0), moves);
    RunKeeps(t0, log, nextId, moves);
    OnceIsOnce(t0, log[..s.high]);
    if s.pos == s.high {
      CaughtUp(t0, log, s);
    }
  }
}
