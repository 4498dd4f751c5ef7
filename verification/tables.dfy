/** The `videos` and `renditions` tables and every statement the workers run on them
    (backend/libs/pipeline/models.py, backend/libs/pipeline/repository.py). A table maps a row's column to
    its value, NULL being absence; row ids and the bookkeeping timestamps are not kept. */
module Tables {
  import opened Text
  import opened Folds

  datatype VideoColumn =
    | VideoRow | VideoOwner | Status | DurationS | Width | Height | ExpectedRenditions
    | PosterKey | SpriteKey | VttKey | MasterPlaylistKey | FailureReason
    | PackagerExpected | PackagingClaimedAt

  datatype RenditionColumn =
    | RenditionRow | RenditionOwner | RenditionStatus | ObjectKey | PlaylistKey | RenditionFailure
    | Attempt | ClaimedAt | PackagerPlaylistKey

  datatype Cell =
    | V(video: string, vcol: VideoColumn)
    | R(video: string, rendition: string, rcol: RenditionColumn)

  datatype Value = Present | Str(s: string) | Num(n: int) | Seconds(x: real) | Names(names: seq<string>)

  type Table = map<Cell, Value>

  // -------------------------------------------------------------------- events

  datatype Event =
    | StatusChanged(id: string, video: string, owner: string, state: string, rendition: Option<string>,
                    duration: Option<real>, width: Option<int>, height: Option<int>,
                    expected: Option<seq<string>>, poster: Option<string>, sprite: Option<string>,
                    vtt: Option<string>, master: Option<string>,
                    renditionObjectKey: Option<string>, renditionPlaylistKey: Option<string>)
    | Failed(id: string, video: string, owner: string, reason: string, rendition: Option<string>)

  const COMPLETED: string := "completed"
  const FAILED: string := "failed"
  const PROBED: string := "probed"

  const STATUS_FIELDS: seq<VideoColumn> :=
    [DurationS, Width, Height, ExpectedRenditions, PosterKey, SpriteKey, VttKey, MasterPlaylistKey]

  function StrOf(o: Option<string>): Option<Value> {
    match o
    case None => None
    case Some(s) => Some(Str(s))
  }

  function NumOf(o: Option<int>): Option<Value> {
    match o
    case None => None
    case Some(n) => Some(Num(n))
  }

  /** `getattr(event, field)`. */
  function Field(e: Event, col: VideoColumn): Option<Value>
    requires e.StatusChanged?
  {
    match col
    case DurationS => (match e.duration case None => None case Some(x) => Some(Seconds(x)))
    case Width => NumOf(e.width)
    case Height => NumOf(e.height)
    case ExpectedRenditions => (match e.expected case None => None case Some(ns) => Some(Names(ns)))
    case PosterKey => StrOf(e.poster)
    case SpriteKey => StrOf(e.sprite)
    case VttKey => StrOf(e.vtt)
    case MasterPlaylistKey => StrOf(e.master)
    case _ => None
  }

  // ---------------------------------------------------------- the projector's writes

  /** The projector's own columns, and nothing that makes or identifies a row. */
  predicate IsState(c: Cell) {
    match c
    case V(_, col) => col in {Status, FailureReason} || col in STATUS_FIELDS
    case R(_, _, col) => col in {RenditionStatus, ObjectKey, PlaylistKey, RenditionFailure}
  }

  /** The video columns an event sets: its state, and whichever optional fields it carries. */
  function VideoWrites(e: Event): (w: Table)
    ensures forall c :: c in w ==> c.V? && c.video == e.video && IsState(c)
  {
    if e.StatusChanged? then
      map[V(e.video, Status) := Str(e.state)]
      + (map col | col in STATUS_FIELDS && Field(e, col).Some? :: V(e.video, col) := Field(e, col).value)
    else
      map[V(e.video, Status) := Str(FAILED), V(e.video, FailureReason) := Str(e.reason)]
  }

  predicate TouchesRendition(e: Event) {
    e.rendition.Some? && (e.StatusChanged? ==> e.renditionObjectKey.Some?)
  }

  /** The rendition columns an upsert sets on conflict. */
  function RenditionWrites(e: Event): (w: Table)
    ensures forall c :: c in w ==> TouchesRendition(e) && c.R? && c.video == e.video && c.rendition == e.rendition.value && IsState(c)
  {
    if !TouchesRendition(e) then map[]
    else if e.StatusChanged? then
      map[R(e.video, e.rendition.value, RenditionStatus) := Str(COMPLETED),
          R(e.video, e.rendition.value, ObjectKey) := Str(e.renditionObjectKey.value)]
      + (if e.renditionPlaylistKey.Some?
         then map[R(e.video, e.rendition.value, PlaylistKey) := Str(e.renditionPlaylistKey.value)] else map[])
    else
      map[R(e.video, e.rendition.value, RenditionStatus) := Str(FAILED),
          R(e.video, e.rendition.value, RenditionFailure) := Str(e.reason)]
  }

  predicate HasVideo(t: Table, video: string) {
    V(video, VideoRow) in t
  }

  predicate HasRendition(t: Table, video: string, rendition: string) {
    R(video, rendition, RenditionRow) in t
  }

  predicate OwnedBy(t: Table, video: string, owner: string) {
    HasVideo(t, video) && V(video, VideoOwner) in t && t[V(video, VideoOwner)] == Str(owner)
  }

  /** What `INSERT ... ON CONFLICT` does besides its values: make the row when there is none. A fresh
      row's `attempt` defaults to 0, which absence stands for. */
  function AddRow(t: Table, video: string, rendition: string, owner: string): Table {
    if HasRendition(t, video, rendition) then t
    else t + map[R(video, rendition, RenditionRow) := Present, R(video, rendition, RenditionOwner) := Str(owner)]
  }

  function Upserted(t: Table, e: Event): Table {
    if TouchesRendition(e) then AddRow(t, e.video, e.rendition.value, e.owner) else t
  }

  function EventWrites(e: Event, owned: bool): (w: Table)
    ensures forall c :: c in w ==> IsState(c) && c.video == e.video
  {
    (if owned then VideoWrites(e) else map[]) + RenditionWrites(e)
  }

  /** `UPDATE videos ... WHERE id AND owner_id`, then the rendition upsert. */
  function Projected(t: Table, e: Event): Table {
    Upserted(t, e) + EventWrites(e, OwnedBy(t, e.video, e.owner))
  }

  // ------------------------------------------------------------------- the claims

  const MINUTE: int := 60_000_000
  const RENDITION_STALE_AFTER: int := 5 * MINUTE
  const PACKAGING_STALE_AFTER: int := 10 * MINUTE

  function NumAt(t: Table, c: Cell): int {
    if c in t && t[c].Num? then t[c].n else 0
  }

  /** NULL, or strictly older than the window. */
  predicate Claimable(t: Table, c: Cell, now: int, window: int) {
    c !in t || NumAt(t, c) < now - window
  }

  predicate WinsRendition(t: Table, video: string, rendition: string, now: int) {
    !HasRendition(t, video, rendition) || Claimable(t, R(video, rendition, ClaimedAt), now, RENDITION_STALE_AFTER)
  }

  function ClaimPatch(t: Table, video: string, rendition: string, now: int): Table {
    map[R(video, rendition, Attempt) := Num(NumAt(t, R(video, rendition, Attempt)) + 1),
        R(video, rendition, ClaimedAt) := Num(now)]
  }

  /** INSERT ... ON CONFLICT DO UPDATE ... WHERE the claim is NULL or stale. */
  function RenditionClaimed(t: Table, owner: string, video: string, rendition: string, now: int): Table {
    if WinsRendition(t, video, rendition, now)
    then AddRow(t, video, rendition, owner) + ClaimPatch(t, video, rendition, now)
    else t
  }

  predicate WinsPackaging(t: Table, video: string, now: int) {
    HasVideo(t, video) && Claimable(t, V(video, PackagingClaimedAt), now, PACKAGING_STALE_AFTER)
  }

  function PackagingClaimed(t: Table, video: string, now: int): Table {
    if WinsPackaging(t, video, now) then t[V(video, PackagingClaimedAt) := Num(now)] else t
  }

  function ClaimReleased(t: Table, video: string): Table {
    t - {V(video, PackagingClaimedAt)}
  }

  function ExpectedRecorded(t: Table, video: string, names: seq<string>): Table {
    if HasVideo(t, video) then t[V(video, PackagerExpected) := Names(names)] else t
  }

  function PlaylistRecorded(t: Table, video: string, rendition: string, key: string): Table {
    if HasRendition(t, video, rendition) then t[R(video, rendition, PackagerPlaylistKey) := Str(key)] else t
  }

  // ------------------------------------------------------------------- statements

  /** One committed statement of one of the three writers. */
  datatype Op =
    | Project(event: Event)
    | ClaimRendition(owner: string, video: string, rendition: string, now: int)
    | RecordExpected(video: string, names: seq<string>)
    | RecordPlaylist(video: string, rendition: string, key: string)
    | ClaimPackaging(video: string, now: int)
    | ReleaseClaim(video: string)

  function Apply(t: Table, op: Op): Table {
    match op
    case Project(e) => Projected(t, e)
    case ClaimRendition(owner, v, r, now) => RenditionClaimed(t, owner, v, r, now)
    case RecordExpected(v, names) => ExpectedRecorded(t, v, names)
    case RecordPlaylist(v, r, key) => PlaylistRecorded(t, v, r, key)
    case ClaimPackaging(v, now) => PackagingClaimed(t, v, now)
    case ReleaseClaim(v) => ClaimReleased(t, v)
  }

  function ApplyAll(t: Table, ops: seq<Op>): Table {
    Fold(Apply, t, ops)
  }

  // -------------------------------------------------------------------- well-formed

  /** No column has a value in a row that does not exist. */
  ghost predicate WellFormed(t: Table) {
    && (forall v, c :: V(v, c) in t ==> V(v, VideoRow) in t)
    && (forall v, r, c :: R(v, r, c) in t ==> R(v, r, RenditionRow) in t)
  }

  lemma ProjectedWellFormed(t: Table, e: Event)
    requires WellFormed(t)
    ensures WellFormed(Projected(t, e))
  {
  }

  lemma ApplyWellFormed(t: Table, op: Op)
    requires WellFormed(t)
    ensures WellFormed(Apply(t, op))
  {
    if op.Project? {
      ProjectedWellFormed(t, op.event);
    }
  }

  // --------------------------------------------------------- each statement, by column

  /** A rendition's claim. It is won exactly without a row, on a NULL stamp, or on one more than five minutes
      old, in microseconds. Winning makes the row if there is none, counts the attempt and stamps it; losing,
      and every other column, changes nothing. */
  lemma RenditionClaimEffect(t: Table, owner: string, v: string, r: string, now: int)
    ensures var t', stamp := Apply(t, ClaimRendition(owner, v, r, now)), R(v, r, ClaimedAt);
            var won := R(v, r, RenditionRow) !in t || stamp !in t || NumAt(t, stamp) + 300_000_000 < now;
            && (WinsRendition(t, v, r, now) <==> won)
            && Held(t', stamp) == (if won then Some(Num(now)) else Held(t, stamp))
            && Held(t', R(v, r, Attempt)) == (if won then Some(Num(NumAt(t, R(v, r, Attempt)) + 1)) else Held(t, R(v, r, Attempt)))
            && HasRendition(t', v, r)
            && Held(t', R(v, r, RenditionOwner)) == (if R(v, r, RenditionRow) in t then Held(t, R(v, r, RenditionOwner)) else Some(Str(owner)))
  {
  }

  lemma ClaimElsewhereKeeps(t: Table, owner: string, v: string, r: string, now: int, c: Cell)
    requires c !in {R(v, r, ClaimedAt), R(v, r, Attempt), R(v, r, RenditionRow), R(v, r, RenditionOwner)}
    ensures Held(Apply(t, ClaimRendition(owner, v, r, now)), c) == Held(t, c)
  {
  }

  /** A packaging claim on an existing video: won on a NULL stamp, and on a stamp exactly when it is more than
      ten minutes old, in microseconds; then, and only then, it is stamped. Without the video there is nothing
      to win. */
  lemma PackagingClaimEffect(t: Table, v: string, now: int)
    ensures var t', stamp := Apply(t, ClaimPackaging(v, now)), V(v, PackagingClaimedAt);
            var won := V(v, VideoRow) in t && (stamp !in t || NumAt(t, stamp) + 600_000_000 < now);
            && (WinsPackaging(t, v, now) <==> won)
            && t' == (if won then t[stamp := Num(now)] else t)
  {
  }

  /** The packager's other three: each touches its one column, if the row is there. */
  lemma PackagerEffects(t: Table, v: string, r: string, names: seq<string>, key: string)
    ensures Apply(t, RecordExpected(v, names)) == if V(v, VideoRow) in t then t[V(v, PackagerExpected) := Names(names)] else t
    ensures Apply(t, RecordPlaylist(v, r, key)) == if R(v, r, RenditionRow) in t then t[R(v, r, PackagerPlaylistKey) := Str(key)] else t
    ensures Apply(t, ReleaseClaim(v)) == t - {V(v, PackagingClaimedAt)}
  {
  }

  // ------------------------------------------------------------ writer independence

  lemma WritesCommute(t: Table, a: Table, b: Table)
    requires a.Keys !! b.Keys
    ensures t + a + b == t + b + a
  {
  }

  lemma AddRowAfterWrites(t: Table, w: Table, video: string, rendition: string, owner: string)
    requires forall c :: c in w ==> c.R? ==> c.rcol != RenditionRow && c.rcol != RenditionOwner
    ensures AddRow(t + w, video, rendition, owner) == AddRow(t, video, rendition, owner) + w
  {
  }

  lemma AddRowsCommute(t: Table, v1: string, r1: string, o1: string, v2: string, r2: string, o2: string)
    requires v1 == v2 ==> o1 == o2
    ensures AddRow(AddRow(t, v1, r1, o1), v2, r2, o2) == AddRow(AddRow(t, v2, r2, o2), v1, r1, o1)
  {
  }

  lemma ClaimUnaffected(t: Table, row: Table, w: Table, video: string, rendition: string, now: int)
    requires WellFormed(t)
    requires forall c :: c in w ==> IsState(c)
    requires row == t || exists v, r, o :: row == AddRow(t, v, r, o)
    ensures WinsRendition(row + w, video, rendition, now) == WinsRendition(t, video, rendition, now)
    ensures ClaimPatch(row + w, video, rendition, now) == ClaimPatch(t, video, rendition, now)
  {
    assert R(video, rendition, ClaimedAt) !in w && R(video, rendition, Attempt) !in w;
    assert R(video, rendition, RenditionRow) !in w;
  }

  lemma OwnedUnaffected(t: Table, video: string, rendition: string, owner: string, now: int, v: string, o: string)
    ensures OwnedBy(RenditionClaimed(t, owner, video, rendition, now), v, o) == OwnedBy(t, v, o)
  {
  }

  /** A projector apply and a transcode claim commute, also when either creates the row, and the claim is
      won or denied alike in either order. */
  lemma ProjectClaimCommute(t: Table, e: Event, owner: string, video: string, rendition: string, now: int)
    requires WellFormed(t) && (e.video == video ==> e.owner == owner)
    ensures Projected(RenditionClaimed(t, owner, video, rendition, now), e)
            == RenditionClaimed(Projected(t, e), owner, video, rendition, now)
    ensures WinsRendition(Projected(t, e), video, rendition, now) == WinsRendition(t, video, rendition, now)
  {
    var w := EventWrites(e, OwnedBy(t, e.video, e.owner));
    var p := ClaimPatch(t, video, rendition, now);
    ClaimUnaffected(t, Upserted(t, e), w, video, rendition, now);
    OwnedUnaffected(t, video, rendition, owner, now, e.video, e.owner);
    ClaimAndWritesCommute(t, e, owner, video, rendition, p, w);
  }

  lemma ClaimAndWritesCommute(t: Table, e: Event, owner: string, video: string, rendition: string, p: Table, w: Table)
    requires e.video == video ==> e.owner == owner
    requires forall c :: c in p ==> c.R? && (c.rcol == Attempt || c.rcol == ClaimedAt)
    requires forall c :: c in w ==> IsState(c)
    ensures Upserted(AddRow(t, video, rendition, owner) + p, e) + w == AddRow(Upserted(t, e) + w, video, rendition, owner) + p
  {
    UpsertedAfterClaim(t, e, owner, video, rendition, p);
    AddRowAfterWrites(Upserted(t, e), w, video, rendition, owner);
    WritesCommute(AddRow(Upserted(t, e), video, rendition, owner), p, w);
  }

  lemma UpsertedAfterClaim(t: Table, e: Event, owner: string, video: string, rendition: string, p: Table)
    requires e.video == video ==> e.owner == owner
    requires forall c :: c in p ==> c.R? && (c.rcol == Attempt || c.rcol == ClaimedAt)
    ensures Upserted(AddRow(t, video, rendition, owner) + p, e) == AddRow(Upserted(t, e), video, rendition, owner) + p
  {
    if TouchesRendition(e) {
      AddRowAfterWrites(AddRow(t, video, rendition, owner), p, e.video, e.rendition.value, e.owner);
      AddRowsCommute(t, video, rendition, owner, e.video, e.rendition.value, e.owner);
    }
  }

  // ----------------------------------------------------------- the packager's columns

  predicate IsPackager(op: Op) {
    op.RecordExpected? || op.RecordPlaylist? || op.ClaimPackaging? || op.ReleaseClaim?
  }

  predicate IsPackagerCell(c: Cell) {
    match c
    case V(_, col) => col == PackagerExpected || col == PackagingClaimedAt
    case R(_, _, col) => col == PackagerPlaylistKey
  }

  /** The other writers neither read nor write the packager's columns. */
  lemma OthersIgnorePackager(t: Table, op: Op, c: Cell, x: Value)
    requires !IsPackager(op) && IsPackagerCell(c)
    ensures Apply(t[c := x], op) == Apply(t, op)[c := x]
    ensures Apply(t - {c}, op) == Apply(t, op) - {c}
    ensures (c in Apply(t, op) <==> c in t) && (c in t ==> Apply(t, op)[c] == t[c])
  {
    if op.Project? {
      ProjectIgnoresPackager(t, op.event, c, x, EventWrites(op.event, OwnedBy(t, op.event.video, op.event.owner)));
    } else {
      ClaimIgnoresPackager(t, op, c, x);
    }
  }

  lemma AddRowIgnores(t: Table, c: Cell, x: Value, v: string, r: string, o: string)
    requires IsPackagerCell(c)
    ensures AddRow(t[c := x], v, r, o) == AddRow(t, v, r, o)[c := x]
    ensures AddRow(t - {c}, v, r, o) == AddRow(t, v, r, o) - {c}
    ensures c in AddRow(t, v, r, o) <==> c in t
    ensures c in t ==> AddRow(t, v, r, o)[c] == t[c]
  {
  }

  lemma WritesIgnore(t: Table, c: Cell, x: Value, w: Table)
    requires c !in w
    ensures t[c := x] + w == (t + w)[c := x]
    ensures (t - {c}) + w == (t + w) - {c}
  {
  }

  lemma ProjectIgnoresPackager(t: Table, e: Event, c: Cell, x: Value, w: Table)
    requires IsPackagerCell(c) && forall d :: d in w ==> IsState(d)
    ensures Upserted(t[c := x], e) + w == (Upserted(t, e) + w)[c := x]
    ensures Upserted(t - {c}, e) + w == (Upserted(t, e) + w) - {c}
    ensures OwnedBy(t[c := x], e.video, e.owner) == OwnedBy(t, e.video, e.owner) == OwnedBy(t - {c}, e.video, e.owner)
    ensures (c in Upserted(t, e) + w <==> c in t) && (c in t ==> (Upserted(t, e) + w)[c] == t[c])
  {
    assert c !in w;
    if TouchesRendition(e) {
      AddRowIgnores(t, c, x, e.video, e.rendition.value, e.owner);
    }
    WritesIgnore(Upserted(t, e), c, x, w);
  }

  lemma ClaimIgnoresPackager(t: Table, op: Op, c: Cell, x: Value)
    requires op.ClaimRendition? && IsPackagerCell(c)
    ensures Apply(t[c := x], op) == Apply(t, op)[c := x]
    ensures Apply(t - {c}, op) == Apply(t, op) - {c}
    ensures (c in Apply(t, op) <==> c in t) && (c in t ==> Apply(t, op)[c] == t[c])
  {
    var p := ClaimPatch(t, op.video, op.rendition, op.now);
    assert ClaimPatch(t[c := x], op.video, op.rendition, op.now) == p == ClaimPatch(t - {c}, op.video, op.rendition, op.now);
    AddRowIgnores(t, c, x, op.video, op.rendition, op.owner);
    WritesIgnore(AddRow(t, op.video, op.rendition, op.owner), c, x, p);
  }

  lemma RowsStay(t: Table, op: Op)
    ensures forall v :: HasVideo(Apply(t, op), v) <==> HasVideo(t, v)
    ensures forall v, r :: HasRendition(t, v, r) ==> HasRendition(Apply(t, op), v, r)
  {
  }

  ghost predicate CreatesRow(t: Table, op: Op, v: string, r: string) {
    !HasRendition(t, v, r) && HasRendition(Apply(t, op), v, r)
  }

  lemma VideoWriteCommutes(t: Table, op: Op, k: Op)
    requires !IsPackager(op) && IsPackager(k) && !k.RecordPlaylist?
    ensures Apply(Apply(t, op), k) == Apply(Apply(t, k), op)
  {
    match k
    case RecordExpected(v, names) => ExpectedCommutes(t, Apply(t, op), op, v, names);
    case ClaimPackaging(v, now) => PackagingCommutes(t, Apply(t, op), op, v, now);
    case ReleaseClaim(v) => OthersIgnorePackager(t, op, V(v, PackagingClaimedAt), Present);
  }

  lemma ExpectedCommutes(t: Table, t': Table, op: Op, v: string, names: seq<string>)
    requires !IsPackager(op) && t' == Apply(t, op)
    ensures ExpectedRecorded(t', v, names) == Apply(ExpectedRecorded(t, v, names), op)
  {
    RowsStay(t, op);
    OthersIgnorePackager(t, op, V(v, PackagerExpected), Names(names));
  }

  lemma PackagingCommutes(t: Table, t': Table, op: Op, v: string, now: int)
    requires !IsPackager(op) && t' == Apply(t, op)
    ensures PackagingClaimed(t', v, now) == Apply(PackagingClaimed(t, v, now), op)
  {
    RowsStay(t, op);
    OthersIgnorePackager(t, op, V(v, PackagingClaimedAt), Num(now));
  }

  lemma PlaylistCommutes(t: Table, t': Table, op: Op, v: string, r: string, key: string)
    requires WellFormed(t) && !IsPackager(op) && t' == Apply(t, op)
    ensures PlaylistRecorded(t', v, r, key) == Apply(PlaylistRecorded(t, v, r, key), op) <==> !CreatesRow(t, op, v, r)
  {
    RowsStay(t, op);
    OthersIgnorePackager(t, op, R(v, r, PackagerPlaylistKey), Str(key));
  }

  /** A packager write commutes with any other writer's statement exactly unless it records a playlist on
      a row that statement is about to create. */
  lemma PackagerCommutes(t: Table, op: Op, k: Op)
    requires WellFormed(t) && !IsPackager(op) && IsPackager(k)
    ensures Apply(Apply(t, op), k) == Apply(Apply(t, k), op)
            <==> !(k.RecordPlaylist? && CreatesRow(t, op, k.video, k.rendition))
  {
    if k.RecordPlaylist? {
      PlaylistCommutes(t, Apply(t, op), op, k.video, k.rendition, k.key);
    } else {
      VideoWriteCommutes(t, op, k);
    }
  }

  // ------------------------------------------------------------------- interleavings

  /** `z` runs the statements of `a` and of `b`, each list in its own order. */
  ghost predicate Interleaves(a: seq<Op>, b: seq<Op>, z: seq<Op>) {
    if z == [] then a == [] && b == []
    else
      var last, init := z[|z| - 1], z[..|z| - 1];
      || (a != [] && a[|a| - 1] == last && Interleaves(a[..|a| - 1], b, init))
      || (b != [] && b[|b| - 1] == last && Interleaves(a, b[..|b| - 1], init))
  }

  type Rows = set<(string, string)>

  ghost predicate Ready(t: Table, rows: Rows) {
    WellFormed(t) && forall v, r :: (v, r) in rows ==> HasRendition(t, v, r)
  }

  /** Statements that commute at every table holding the given rows. */
  predicate Independent(x: Op, y: Op, rows: Rows) {
    if IsPackager(x) then false
    else if IsPackager(y) then y.RecordPlaylist? ==> (y.video, y.rendition) in rows
    else x.Project? && y.ClaimRendition? && (x.event.video == y.video ==> x.event.owner == y.owner)
  }

  lemma IndependentCommute(t: Table, x: Op, y: Op, rows: Rows)
    requires Ready(t, rows) && Independent(x, y, rows)
    ensures Apply(Apply(t, x), y) == Apply(Apply(t, y), x)
  {
    if IsPackager(y) {
      PackagerCommutes(t, x, y);
    } else {
      ProjectClaimCommute(t, x.event, y.owner, y.video, y.rendition, y.now);
    }
  }

  lemma ReadyStays(t: Table, op: Op, rows: Rows)
    requires Ready(t, rows)
    ensures Ready(Apply(t, op), rows)
  {
    ApplyWellFormed(t, op);
    RowsStay(t, op);
  }

  lemma {:induction false} ReadyRuns(t: Table, ops: seq<Op>, rows: Rows)
    requires Ready(t, rows)
    ensures Ready(ApplyAll(t, ops), rows)
  {
    if ops != [] {
      ReadyRuns(t, ops[..|ops| - 1], rows);
      ReadyStays(ApplyAll(t, ops[..|ops| - 1]), ops[|ops| - 1], rows);
    }
  }

  /** A statement moves in front of any number of statements it is independent of. */
  lemma {:induction false} MovePast(t: Table, x: Op, b: seq<Op>, rows: Rows)
    requires Ready(t, rows) && forall y :: y in b ==> Independent(x, y, rows)
    ensures Apply(ApplyAll(t, b), x) == ApplyAll(Apply(t, x), b)
  {
    if b != [] {
      var init, last := b[..|b| - 1], b[|b| - 1];
      MovePast(t, x, init, rows);
      ReadyRuns(t, init, rows);
      IndependentCommute(ApplyAll(t, init), x, last, rows);
    }
  }

  /** Any interleaving of independent lists gives the table of one list after the other. */
  lemma {:induction false} InterleavingIsSerial(t: Table, a: seq<Op>, b: seq<Op>, z: seq<Op>, rows: Rows)
    requires Ready(t, rows) && Interleaves(a, b, z)
    requires forall x, y :: x in a && y in b ==> Independent(x, y, rows)
    ensures ApplyAll(t, z) == ApplyAll(ApplyAll(t, a), b)
  {
    if z != [] {
      var init, last := z[..|z| - 1], z[|z| - 1];
      if b != [] && b[|b| - 1] == last && Interleaves(a, b[..|b| - 1], init) {
        InterleavingIsSerial(t, a, b[..|b| - 1], init, rows);
      } else {
        var before := a[..|a| - 1];
        InterleavingIsSerial(t, before, b, init, rows);
        ReadyRuns(t, before, rows);
        assert last in a;
        MovePast(ApplyAll(t, before), last, b, rows);
      }
    }
  }

  lemma {:induction false} InterleavedFrom(a: seq<Op>, b: seq<Op>, z: seq<Op>)
    requires Interleaves(a, b, z)
    ensures forall x :: x in z ==> x in a || x in b
  {
    if z != [] {
      var init, last := z[..|z| - 1], z[|z| - 1];
      if b != [] && b[|b| - 1] == last && Interleaves(a, b[..|b| - 1], init) {
        InterleavedFrom(a, b[..|b| - 1], init);
      } else {
        InterleavedFrom(a[..|a| - 1], b, init);
      }
    }
  }

  /** Three writers, three lists of statements: however they interleave, the tables end the same, provided
      writers agree on each video's owner and playlists are recorded on rows that exist from the start. */
  lemma WritersIndependent(t: Table, projected: seq<Op>, claimed: seq<Op>, packaged: seq<Op>, workers: seq<Op>, z: seq<Op>, rows: Rows)
    requires Ready(t, rows) && Interleaves(projected, claimed, workers) && Interleaves(workers, packaged, z)
    requires forall x :: x in projected ==> x.Project?
    requires forall y :: y in claimed ==> y.ClaimRendition?
    requires forall x, y :: x in projected && y in claimed ==> (x.event.video == y.video ==> x.event.owner == y.owner)
    requires forall k :: k in packaged ==> IsPackager(k) && (k.RecordPlaylist? ==> (k.video, k.rendition) in rows)
    ensures ApplyAll(t, z) == ApplyAll(t, projected + claimed + packaged)
  {
    InterleavedFrom(projected, claimed, workers);
    InterleavingIsSerial(t, projected, claimed, workers, rows);
    InterleavingIsSerial(t, workers, packaged, z, rows);
    FoldConcat(Apply, t, projected, claimed);
    FoldConcat(Apply, t, projected + claimed, packaged);
  }

  // ------------------------------------------------------------------ claim spacing

  /** The stamps of the winning claims on one rendition, in order. */
  function RenditionWins(t: Table, ops: seq<Op>, v: string, r: string): seq<int> {
    if ops == [] then []
    else RenditionWins(t, ops[..|ops| - 1], v, r) + MoreWins(ApplyAll(t, ops[..|ops| - 1]), ops[|ops| - 1], v, r)
  }

  /** `attempt` counts the wins and `claimed_at` is the last of them. */
  ghost predicate CountsWins(t: Table, wins: seq<int>, v: string, r: string) {
    && NumAt(t, R(v, r, Attempt)) == |wins|
    && (if wins == [] then R(v, r, ClaimedAt) !in t
        else R(v, r, ClaimedAt) in t && t[R(v, r, ClaimedAt)] == Num(wins[|wins| - 1]))
  }

  lemma WritesKeep(t: Table, e: Event, w: Table, v: string, r: string)
    requires forall c :: c in w ==> IsState(c)
    ensures Held(Upserted(t, e) + w, R(v, r, Attempt)) == Held(t, R(v, r, Attempt))
    ensures Held(Upserted(t, e) + w, R(v, r, ClaimedAt)) == Held(t, R(v, r, ClaimedAt))
  {
    assert R(v, r, Attempt) !in w && R(v, r, ClaimedAt) !in w;
  }

  lemma OthersKeepClaim(t: Table, op: Op, v: string, r: string)
    requires !(op.ClaimRendition? && op.video == v && op.rendition == r)
    ensures Held(Apply(t, op), R(v, r, Attempt)) == Held(t, R(v, r, Attempt))
    ensures Held(Apply(t, op), R(v, r, ClaimedAt)) == Held(t, R(v, r, ClaimedAt))
  {
    if op.Project? {
      WritesKeep(t, op.event, EventWrites(op.event, OwnedBy(t, op.event.video, op.event.owner)), v, r);
    }
  }

  function Held(t: Table, c: Cell): Option<Value> {
    if c in t then Some(t[c]) else None
  }

  lemma ClaimCounts(t: Table, wins: seq<int>, op: Op)
    requires op.ClaimRendition? && WellFormed(t) && CountsWins(t, wins, op.video, op.rendition)
    ensures var won := WinsRendition(t, op.video, op.rendition, op.now);
            && CountsWins(Apply(t, op), if won then wins + [op.now] else wins, op.video, op.rendition)
            && (won && wins != [] ==> op.now - wins[|wins| - 1] > RENDITION_STALE_AFTER)
  {
  }

  function MoreWins(t: Table, op: Op, v: string, r: string): seq<int> {
    if op.ClaimRendition? && op.video == v && op.rendition == r && WinsRendition(t, v, r, op.now) then [op.now] else []
  }

  ghost predicate Spaced(wins: seq<int>) {
    forall i :: 0 < i < |wins| ==> wins[i] - wins[i - 1] > RENDITION_STALE_AFTER
  }

  lemma StepSpaced(t: Table, t': Table, op: Op, wins: seq<int>, v: string, r: string)
    requires t' == Apply(t, op) && WellFormed(t) && CountsWins(t, wins, v, r) && Spaced(wins)
    ensures CountsWins(t', wins + MoreWins(t, op, v, r), v, r) && Spaced(wins + MoreWins(t, op, v, r))
  {
    if op.ClaimRendition? && op.video == v && op.rendition == r {
      ClaimCounts(t, wins, op);
    } else {
      OthersKeepClaim(t, op, v, r);
    }
    assert wins + [] == wins;
  }

  /** Over any sequence of statements of all writers, starting where the rendition was never claimed:
      consecutive winning stamps are more than the stale window apart, and `attempt` is the number of wins. */
  lemma {:induction false} RenditionClaimsSpaced(t: Table, ops: seq<Op>, v: string, r: string)
    requires WellFormed(t) && R(v, r, Attempt) !in t && R(v, r, ClaimedAt) !in t
    ensures CountsWins(ApplyAll(t, ops), RenditionWins(t, ops, v, r), v, r) && Spaced(RenditionWins(t, ops, v, r))
  {
    if ops != [] {
      var init, last := ops[..|ops| - 1], ops[|ops| - 1];
      RenditionClaimsSpaced(t, init, v, r);
      ReadyRuns(t, init, {});
      StepSpaced(ApplyAll(t, init), ApplyAll(t, ops), last, RenditionWins(t, init, v, r), v, r);
    }
  }

  datatype PackagingStep = Won(at: int) | Released

  /** The winning packaging claims and the releases of one video, in order. */
  function PackagingHistory(t: Table, ops: seq<Op>, v: string): seq<PackagingStep> {
    if ops == [] then []
    else
      var init, last := ops[..|ops| - 1], ops[|ops| - 1];
      PackagingHistory(t, init, v) + NextPackagingStep(ApplyAll(t, init), last, v)
  }

  ghost predicate HoldsLastWin(t: Table, history: seq<PackagingStep>, v: string) {
    if history == [] || history[|history| - 1].Released? then V(v, PackagingClaimedAt) !in t
    else V(v, PackagingClaimedAt) in t && t[V(v, PackagingClaimedAt)] == Num(history[|history| - 1].at)
  }

  lemma OthersKeepPackaging(t: Table, op: Op, v: string)
    requires !((op.ClaimPackaging? || op.ReleaseClaim?) && op.video == v)
    ensures Held(Apply(t, op), V(v, PackagingClaimedAt)) == Held(t, V(v, PackagingClaimedAt))
  {
    if !IsPackager(op) {
      OthersIgnorePackager(t, op, V(v, PackagingClaimedAt), Present);
    }
  }

  /** Two packaging wins with no release between them are more than ten minutes apart. */
  lemma {:induction false} PackagingClaimsSpaced(t: Table, ops: seq<Op>, v: string)
    requires V(v, PackagingClaimedAt) !in t
    ensures var h := PackagingHistory(t, ops, v);
            && HoldsLastWin(ApplyAll(t, ops), h, v)
            && forall i :: 0 < i < |h| && h[i - 1].Won? && h[i].Won? ==> h[i].at - h[i - 1].at > PACKAGING_STALE_AFTER
  {
    if ops != [] {
      var init, last := ops[..|ops| - 1], ops[|ops| - 1];
      PackagingClaimsSpaced(t, init, v);
      PackagingStepSpaced(ApplyAll(t, init), PackagingHistory(t, init, v), last, v);
    }
  }

  ghost predicate WinsApart(h: seq<PackagingStep>) {
    forall i :: 0 < i < |h| && h[i - 1].Won? && h[i].Won? ==> h[i].at - h[i - 1].at > PACKAGING_STALE_AFTER
  }

  function NextPackagingStep(t: Table, op: Op, v: string): seq<PackagingStep> {
    if op.ClaimPackaging? && op.video == v && WinsPackaging(t, v, op.now) then [Won(op.now)]
    else if op.ReleaseClaim? && op.video == v then [Released]
    else []
  }

  lemma PackagingStepSpaced(t: Table, h: seq<PackagingStep>, op: Op, v: string)
    requires HoldsLastWin(t, h, v) && WinsApart(h)
    ensures HoldsLastWin(Apply(t, op), h + NextPackagingStep(t, op, v), v) && WinsApart(h + NextPackagingStep(t, op, v))
  {
    if !((op.ClaimPackaging? || op.ReleaseClaim?) && op.video == v) {
      OthersKeepPackaging(t, op, v);
    }
  }

  // ---------------------------------------------------------------- the join's query

  function ExpectedOf(t: Table, v: string): seq<string> {
    if V(v, PackagerExpected) in t && t[V(v, PackagerExpected)].Names? then t[V(v, PackagerExpected)].names else []
  }

  predicate HasPlaylist(t: Table, v: string, r: string) {
    R(v, r, PackagerPlaylistKey) in t && t[R(v, r, PackagerPlaylistKey)].Str?
  }

  function PlaylistsOf(t: Table, v: string, names: seq<string>): map<string, string> {
    map r | r in names && HasPlaylist(t, v, r) :: t[R(v, r, PackagerPlaylistKey)].s
  }

  /** The workers' repositories over one database; every method is one committed transaction. */
  class Repositories {
    var table: Table

    constructor (table: Table)
      ensures this.table == table
    {
      this.table := table;
    }

    /** RenditionRepository.claim */
    method Claim(owner: string, video: string, rendition: string, now: int) returns (won: bool)
      modifies this
      ensures table == Apply(old(table), ClaimRendition(owner, video, rendition, now))
      ensures won == WinsRendition(old(table), video, rendition, now)
    {
      var staleBefore := now - RENDITION_STALE_AFTER;
      var claimedAt := R(video, rendition, ClaimedAt);
      if R(video, rendition, RenditionRow) !in table {
        table := table + map[R(video, rendition, RenditionRow) := Present, R(video, rendition, RenditionOwner) := Str(owner)];
        won := true;
      } else {
        won := claimedAt !in table || NumAt(table, claimedAt) < staleBefore;
      }
      if won {
        table := table + map[R(video, rendition, Attempt) := Num(NumAt(table, R(video, rendition, Attempt)) + 1),
                             claimedAt := Num(now)];
      }
    }

    /** PackagerRepository.record_expected */
    method StoreExpected(video: string, names: seq<string>)
      modifies this
      ensures table == Apply(old(table), RecordExpected(video, names))
    {
      if V(video, VideoRow) in table {
        table := table[V(video, PackagerExpected) := Names(names)];
      }
    }

    /** PackagerRepository.record_rendition: false when there is no such row. */
    method StorePlaylist(video: string, rendition: string, key: string) returns (found: bool)
      modifies this
      ensures table == Apply(old(table), RecordPlaylist(video, rendition, key))
      ensures found == HasRendition(old(table), video, rendition)
    {
      found := R(video, rendition, RenditionRow) in table;
      if found {
        table := table[R(video, rendition, PackagerPlaylistKey) := Str(key)];
      }
    }

    /** The first of ready_playlists' two selects. */
    method ReadExpected(video: string) returns (expected: seq<string>)
      ensures expected == ExpectedOf(table, video)
    {
      expected := ExpectedOf(table, video);
    }

    /** The second: the recorded keys among the expected renditions. */
    method ReadPlaylists(video: string, expected: seq<string>) returns (playlists: map<string, string>)
      ensures forall r :: r in playlists <==> r in expected && HasPlaylist(table, video, r)
      ensures forall r :: r in playlists ==> Held(table, R(video, r, PackagerPlaylistKey)) == Some(Str(playlists[r]))
    {
      playlists := PlaylistsOf(table, video, expected);
    }

    /** PackagerRepository.ready_playlists: something exactly when the expected set is known, non-empty and
        complete, and then one recorded key for each expected rendition. */
    method ReadyPlaylists(video: string) returns (playlists: Option<map<string, string>>)
      ensures playlists.Some? <==>
                ExpectedOf(table, video) != [] && forall r :: r in ExpectedOf(table, video) ==> HasPlaylist(table, video, r)
      ensures playlists.Some? ==>
                && (forall r :: r in playlists.value <==> r in ExpectedOf(table, video))
                && (forall r :: r in playlists.value ==> table[R(video, r, PackagerPlaylistKey)] == Str(playlists.value[r]))
    {
      var expected := ReadExpected(video);
      if expected == [] {
        return None;
      }
      var found := ReadPlaylists(video, expected);
      var wanted := set r | r in expected;
      if found.Keys != wanted {
        assert exists r :: r in wanted && r !in found.Keys;
        return None;
      }
      assert forall r :: r in expected ==> r in wanted;
      return Some(found);
    }

    /** PackagerRepository.claim */
    method ClaimPackaging(video: string, now: int) returns (won: bool)
      modifies this
      ensures table == Apply(old(table), Op.ClaimPackaging(video, now))
      ensures won == WinsPackaging(old(table), video, now)
    {
      var staleBefore := now - PACKAGING_STALE_AFTER;
      var claimedAt := V(video, PackagingClaimedAt);
      won := V(video, VideoRow) in table && (claimedAt !in table || NumAt(table, claimedAt) < staleBefore);
      if won {
        table := table[claimedAt := Num(now)];
      }
    }

    /** PackagerRepository.release_claim: whoever holds it. */
    method Release(video: string)
      modifies this
      ensures table == Apply(old(table), ReleaseClaim(video))
    {
      table := table - {V(video, PackagingClaimedAt)};
    }
  }
}
