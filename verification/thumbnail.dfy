/** Sprite sheet and scrubber cues, on exact reals (backend/libs/pipeline/thumbnail.py). */
module Thumbnail {

  const TILE_WIDTH: nat := 160
  const TILE_HEIGHT: nat := 90
  const MAX_COLUMNS: nat := 10
  const MAX_TILES: nat := 100
  const GUARD_S: real := 0.001

  function Min(a: int, b: int): int {
    if a < b then a else b
  }

  function Max(a: real, b: real): real {
    if a < b then b else a
  }

  function Ceil(x: real): (n: int)
    ensures x <= n as real < x + 1.0
  {
    -((-x).Floor)
  }

  function PosterTimestamp(duration: real): real {
    if duration <= 1.0 then 0.0
    else if duration * 0.1 < duration - 0.5 then duration * 0.1 else duration - 0.5
  }

  /** The poster is never past the last half second of a source longer than one, nor past its first tenth. */
  lemma PosterInside(duration: real)
    ensures 0.0 <= PosterTimestamp(duration)
    ensures duration > 0.0 ==> PosterTimestamp(duration) < duration && PosterTimestamp(duration) <= duration * 0.1
    ensures duration > 1.0 ==> 0.0 < PosterTimestamp(duration) && duration - PosterTimestamp(duration) >= 0.5
  {
  }

  function TileCount(duration: real, interval: real): int
    requires interval > 0.0
  {
    if duration <= 0.0 then 1
    else if Min(MAX_TILES, Ceil(duration / interval)) < 1 then 1 else Min(MAX_TILES, Ceil(duration / interval))
  }

  function SpriteGrid(count: int, maxColumns: int): (int, int)
    requires 0 < count && 0 < maxColumns
  {
    var columns := Min(count, maxColumns);
    (columns, (count + columns - 1) / columns)
  }

  datatype SpriteLayout = SpriteLayout(count: nat, columns: nat, rows: nat, interval: real)

  lemma TileCountRange(duration: real, interval: real)
    requires interval > 0.0
    ensures 1 <= TileCount(duration, interval) <= MAX_TILES
  {
  }

  lemma GridRange(count: int, maxColumns: int)
    requires 0 < count && 0 < maxColumns
    ensures var (columns, rows) := SpriteGrid(count, maxColumns); 1 <= columns <= maxColumns && columns <= count && rows >= 1
    ensures var (columns, rows) := SpriteGrid(count, maxColumns); (rows - 1) * columns < count <= rows * columns
  {
    var columns := Min(count, maxColumns);
    var rows := (count + columns - 1) / columns;
    var rest := (count + columns - 1) % columns;
    assert rows * columns + rest == count + columns - 1;
    assert (rows - 1) * columns == rows * columns - columns;
    assert rows * columns > 0;
  }

  function PlanSprite(duration: real, interval: real): SpriteLayout
    requires interval > 0.0
  {
    TileCountRange(duration, interval);
    var count := TileCount(duration, interval);
    GridRange(count, MAX_COLUMNS);
    var (columns, rows) := SpriteGrid(count, MAX_COLUMNS);
    SpriteLayout(count, columns, rows, if duration > 0.0 then duration / (count + 1) as real else interval)
  }

  /** As few tiles as keep neighbours within the interval, at least one and at most a hundred. */
  lemma TileCountTight(duration: real, interval: real)
    requires interval > 0.0
    ensures var n := TileCount(duration, interval);
            && 1 <= n <= MAX_TILES
            && (n > 1 ==> (n - 1) as real * interval < duration)
            && (n < MAX_TILES && duration > 0.0 ==> duration <= n as real * interval)
  {
    if duration > 0.0 {
      var q := duration / interval;
      assert q * interval == duration;
      var n := TileCount(duration, interval);
      if n > 1 {
        Scale((n - 1) as real, q, interval);
      }
      if n < MAX_TILES {
        ScaleUp(q, n as real, interval);
      }
    }
  }

  lemma Scale(a: real, b: real, c: real)
    requires a < b && c > 0.0
    ensures a * c < b * c
  {
  }

  lemma ScaleUp(a: real, b: real, c: real)
    requires a <= b && c > 0.0
    ensures a * c <= b * c
  {
  }

  // ---------------------------------------------------------------------------- cues

  datatype Cue = Cue(start: real, end: real, x: nat, y: nat)

  /** The cue a tile should have: its own slot of the duration, the last one up to the end, whatever the
      guard; and its own cell of the grid. */
  function CueAt(layout: SpriteLayout, duration: real, i: nat): Cue
    requires 0 < layout.columns
  {
    var start := i as real * layout.interval;
    var end := if i == layout.count - 1 then duration else (i + 1) as real * layout.interval;
    Cue(start, Max(end, start + GUARD_S), (i % layout.columns) * TILE_WIDTH, (i / layout.columns) * TILE_HEIGHT)
  }

  method BuildVtt(layout: SpriteLayout, duration: real) returns (cues: seq<Cue>)
    requires 0 < layout.columns
    ensures |cues| == layout.count
    ensures forall i :: 0 <= i < layout.count ==> cues[i] == CueAt(layout, duration, i)
  {
    cues := [];
    for index := 0 to layout.count
      invariant |cues| == index
      invariant forall i :: 0 <= i < index ==> cues[i] == CueAt(layout, duration, i)
    {
      var start := index as real * layout.interval;
      var isLast := index == layout.count - 1;
      var end := if isLast then duration else (index + 1) as real * layout.interval;
      end := Max(end, start + GUARD_S);
      var column := index % layout.columns;
      var row := index / layout.columns;
      cues := cues + [Cue(start, end, column * TILE_WIDTH, row * TILE_HEIGHT)];
    }
  }

  lemma IntervalTimesSlots(duration: real, interval: real)
    requires duration > 0.0 && interval > 0.0
    ensures var l := PlanSprite(duration, interval);
            l.interval > 0.0 && l.interval * (l.count + 1) as real == duration
  {
    var n := TileCount(duration, interval);
    TileCountRange(duration, interval);
    Divided(duration, (n + 1) as real);
  }

  lemma Divided(a: real, b: real)
    requires a > 0.0 && b > 0.0
    ensures a / b > 0.0 && a / b * b == a
  {
  }

  /** Spacing never falls below a third of the interval once there is more than one tile. */
  lemma SlotsAreWide(duration: real, interval: real)
    requires duration > 0.0 && interval > 0.0 && PlanSprite(duration, interval).count > 1
    ensures 3.0 * PlanSprite(duration, interval).interval > interval
  {
    var l := PlanSprite(duration, interval);
    IntervalTimesSlots(duration, interval);
    TileCountTight(duration, interval);
    WideSlots(duration, interval, l.interval, l.count as real);
  }

  lemma WideSlots(duration: real, interval: real, slot: real, n: real)
    requires n >= 2.0 && interval > 0.0 && slot * (n + 1.0) == duration && (n - 1.0) * interval < duration
    ensures 3.0 * slot > interval
  {
    if 3.0 * slot <= interval {
      ScaleUp(3.0 * slot, interval, n - 1.0);
      assert 3.0 * slot * (n - 1.0) == 3.0 * (slot * (n + 1.0)) - 6.0 * slot;
      assert slot * (n + 1.0) == slot * n + slot;
      if slot > 0.0 {
        ScaleUp(2.0, n, slot);
      }
    }
  }

  // ------------------------------------------------------------------------- results

  /** No gap, no overlap: each cue ends where the next begins. */
  ghost predicate Chained(cues: seq<Cue>) {
    && (cues != [] ==> cues[0].start == 0.0)
    && (forall i :: 0 <= i < |cues| ==> cues[i].start < cues[i].end)
    && (forall i :: 0 <= i < |cues| - 1 ==> cues[i].end == cues[i + 1].start)
  }

  lemma Slot(k: nat, slot: real)
    ensures (k + 1) as real * slot == k as real * slot + slot
  {
  }

  /** More than one tile: one slot to each cue but the last, which has two. */
  ghost predicate Slotted(l: SpriteLayout, duration: real) {
    l.columns > 0 && l.count > 1 && l.interval > 0.0 && l.interval * (l.count + 1) as real == duration
  }

  lemma LayoutSlotted(duration: real, interval: real)
    requires interval > 0.0 && PlanSprite(duration, interval).count > 1
    ensures Slotted(PlanSprite(duration, interval), duration)
    ensures interval >= 3.0 * GUARD_S ==> PlanSprite(duration, interval).interval >= GUARD_S
  {
    GridRange(PlanSprite(duration, interval).count, MAX_COLUMNS);
    if duration > 0.0 {
      IntervalTimesSlots(duration, interval);
      SlotsAreWide(duration, interval);
    }
  }

  lemma SlotCue(l: SpriteLayout, duration: real, i: nat)
    requires Slotted(l, duration) && i < l.count - 1
    ensures CueAt(l, duration, i).end == (i + 1) as real * l.interval <==> l.interval >= GUARD_S
    ensures CueAt(l, duration, i).start < CueAt(l, duration, i).end
  {
    Slot(i, l.interval);
  }

  /** For every planned layout: the guard leaves a cue that is not the last alone exactly when a slot is at
      least a millisecond, which it is for every interval of three or more. */
  lemma InnerCue(duration: real, interval: real, i: nat)
    requires interval > 0.0 && i < PlanSprite(duration, interval).count - 1
    ensures var l := PlanSprite(duration, interval);
            && (CueAt(l, duration, i).end == (i + 1) as real * l.interval <==> l.interval >= GUARD_S)
            && (interval >= 3.0 * GUARD_S ==> l.interval >= GUARD_S)
  {
    LayoutSlotted(duration, interval);
    SlotCue(PlanSprite(duration, interval), duration, i);
  }

  lemma LastCue(l: SpriteLayout, duration: real, i: nat)
    requires Slotted(l, duration) && i == l.count - 1
    ensures CueAt(l, duration, i).end == duration <==> 2.0 * l.interval >= GUARD_S
    ensures CueAt(l, duration, i).start < CueAt(l, duration, i).end
  {
    LastStretch(i, l.interval, duration);
  }

  lemma OnlyCue(l: SpriteLayout, duration: real)
    requires l.columns > 0 && l.count == 1
    ensures CueAt(l, duration, 0).start == 0.0 && CueAt(l, duration, 0).end > 0.0
    ensures CueAt(l, duration, 0).end == duration <==> duration >= GUARD_S
  {
    assert 0 as real * l.interval == 0.0;
  }

  lemma LastStretch(i: nat, slot: real, duration: real)
    requires slot * (i + 2) as real == duration
    ensures duration - i as real * slot == 2.0 * slot
  {
    assert (i + 2) as real == i as real + 2.0;
  }

  /** When the guard changes nothing. */
  predicate GuardIdle(l: SpriteLayout, duration: real) {
    if l.count == 1 then duration >= GUARD_S else l.interval >= GUARD_S
  }

  /** For every real duration and every interval: between 1 and 100 cues, which tile the video, each ending
      where the next begins and the last at the end, exactly when no cue is shorter than the guard. */
  lemma CuesTileTheVideo(duration: real, interval: real, cues: seq<Cue>)
    requires interval > 0.0
    requires var l := PlanSprite(duration, interval);
             |cues| == l.count && forall i :: 0 <= i < l.count ==> cues[i] == CueAt(l, duration, i)
    ensures 1 <= |cues| <= MAX_TILES
    ensures Chained(cues) && cues[|cues| - 1].end == duration <==> GuardIdle(PlanSprite(duration, interval), duration)
  {
    var l := PlanSprite(duration, interval);
    TileCountRange(duration, interval);
    if l.count == 1 {
      OnlyCue(l, duration);
    } else {
      LayoutSlotted(duration, interval);
      CuesChained(l, duration, cues);
    }
  }

  lemma CuesChained(l: SpriteLayout, duration: real, cues: seq<Cue>)
    requires Slotted(l, duration)
    requires |cues| == l.count && forall i :: 0 <= i < l.count ==> cues[i] == CueAt(l, duration, i)
    ensures Chained(cues) && cues[|cues| - 1].end == duration <==> l.interval >= GUARD_S
  {
    FirstCue(l, duration);
    SlotCue(l, duration, 0);
    LastCue(l, duration, l.count - 1);
    if l.interval >= GUARD_S {
      forall i | 0 <= i < |cues|
        ensures cues[i].start < cues[i].end
        ensures i < |cues| - 1 ==> cues[i].end == cues[i + 1].start
      {
        if i < l.count - 1 {
          SlotCue(l, duration, i);
        } else {
          LastCue(l, duration, i);
        }
      }
    }
  }

  lemma FirstCue(l: SpriteLayout, duration: real)
    requires l.columns > 0 && l.count > 1
    ensures CueAt(l, duration, 0).start == 0.0 && CueAt(l, duration, 1).start == l.interval == 1 as real * l.interval
  {
    assert 0 as real * l.interval == 0.0;
  }

  /** At the interval the workers use, five seconds, the cues tile exactly the videos of at least a millisecond. */
  lemma DefaultCuesTile(duration: real, cues: seq<Cue>)
    requires var l := PlanSprite(duration, 5.0);
             |cues| == l.count && forall i :: 0 <= i < l.count ==> cues[i] == CueAt(l, duration, i)
    ensures 1 <= |cues| <= 100
    ensures Chained(cues) && cues[|cues| - 1].end == duration <==> duration >= 0.001
  {
    CuesTileTheVideo(duration, 5.0, cues);
    if PlanSprite(duration, 5.0).count > 1 {
      LayoutSlotted(duration, 5.0);
      SlotsOutlast(duration);
    }
  }

  lemma SlotsOutlast(duration: real)
    requires PlanSprite(duration, 5.0).count > 1
    ensures duration >= GUARD_S
  {
    TileCountTight(duration, 5.0);
    ScaleUp(1.0, (PlanSprite(duration, 5.0).count - 1) as real, 5.0);
  }

  /** Every sample's whole period, the spare slot aside, ends strictly inside the source. */
  lemma SamplesInside(duration: real, interval: real, k: nat)
    requires duration > 0.0 && interval > 0.0 && k < PlanSprite(duration, interval).count
    ensures (k + 1) as real * PlanSprite(duration, interval).interval < duration
  {
    var l := PlanSprite(duration, interval);
    IntervalTimesSlots(duration, interval);
    Scale((k + 1) as real, (l.count + 1) as real, l.interval);
  }

  predicate Inside(layout: SpriteLayout, cue: Cue) {
    cue.x + TILE_WIDTH <= layout.columns * TILE_WIDTH && cue.y + TILE_HEIGHT <= layout.rows * TILE_HEIGHT
  }

  predicate Disjoint(a: Cue, b: Cue) {
    a.x + TILE_WIDTH <= b.x || b.x + TILE_WIDTH <= a.x || a.y + TILE_HEIGHT <= b.y || b.y + TILE_HEIGHT <= a.y
  }

  lemma RowBound(i: nat, columns: nat, rows: nat)
    requires 0 < columns && i < rows * columns
    ensures i / columns < rows
  {
    if i / columns >= rows {
      MulMonotone(rows, i / columns, columns);
    }
  }

  lemma MulMonotone(a: nat, b: nat, c: nat)
    requires a <= b
    ensures a * c <= b * c
  {
  }

  lemma CellsDiffer(i: nat, k: nat, columns: nat)
    requires 0 < columns && i != k
    ensures i / columns != k / columns || i % columns != k % columns
  {
    assert i == i / columns * columns + i % columns;
    assert k == k / columns * columns + k % columns;
  }

  lemma Apart(a: nat, b: nat, size: nat)
    requires a != b
    ensures a * size + size <= b * size || b * size + size <= a * size
  {
    if a < b {
      MulMonotone(a + 1, b, size);
    } else {
      MulMonotone(b + 1, a, size);
    }
  }

  /** No two tiles overlap, each lies in the sheet, and no row of the sheet is empty. */
  lemma TilesNeverOverlap(duration: real, interval: real, i: nat, k: nat)
    requires interval > 0.0
    requires var n := PlanSprite(duration, interval).count; i < k < n
    ensures var l := PlanSprite(duration, interval);
            Disjoint(CueAt(l, duration, i), CueAt(l, duration, k))
  {
    TilesApart(PlanSprite(duration, interval), duration, i, k);
  }

  lemma TilesApart(l: SpriteLayout, duration: real, i: nat, k: nat)
    requires 0 < l.columns && i != k
    ensures Disjoint(CueAt(l, duration, i), CueAt(l, duration, k))
  {
    var column1, row1, column2, row2 := i % l.columns, i / l.columns, k % l.columns, k / l.columns;
    CellsDiffer(i, k, l.columns);
    CueCorner(l, duration, i, column1, row1);
    CueCorner(l, duration, k, column2, row2);
    CornersApart(column1, row1, column2, row2, CueAt(l, duration, i), CueAt(l, duration, k));
  }

  lemma CueCorner(l: SpriteLayout, duration: real, i: nat, column: nat, row: nat)
    requires 0 < l.columns && column == i % l.columns && row == i / l.columns
    ensures CueAt(l, duration, i).x == column * TILE_WIDTH && CueAt(l, duration, i).y == row * TILE_HEIGHT
  {
  }

  lemma CornersApart(column1: nat, row1: nat, column2: nat, row2: nat, a: Cue, b: Cue)
    requires column1 != column2 || row1 != row2
    requires a.x == column1 * TILE_WIDTH && a.y == row1 * TILE_HEIGHT && b.x == column2 * TILE_WIDTH && b.y == row2 * TILE_HEIGHT
    ensures Disjoint(a, b)
  {
    if column1 != column2 {
      Apart(column1, column2, TILE_WIDTH);
    } else {
      Apart(row1, row2, TILE_HEIGHT);
    }
  }

  lemma TileInSheet(duration: real, interval: real, i: nat)
    requires interval > 0.0 && i < PlanSprite(duration, interval).count
    ensures Inside(PlanSprite(duration, interval), CueAt(PlanSprite(duration, interval), duration, i))
  {
    var l := PlanSprite(duration, interval);
    GridRange(l.count, MAX_COLUMNS);
    RowBound(i, l.columns, l.rows);
    MulMonotone(i % l.columns + 1, l.columns, TILE_WIDTH);
    MulMonotone(i / l.columns + 1, l.rows, TILE_HEIGHT);
  }

  lemma NoEmptyRow(duration: real, interval: real, row: nat)
    requires interval > 0.0 && row < PlanSprite(duration, interval).rows
    ensures var l := PlanSprite(duration, interval);
            row * l.columns < l.count && CueAt(l, duration, row * l.columns).y == row * TILE_HEIGHT
  {
    var l := PlanSprite(duration, interval);
    GridRange(l.count, MAX_COLUMNS);
    MulMonotone(row, l.rows - 1, l.columns);
    MultipleDivided(row, l.columns);
  }

  lemma MultipleDivided(a: nat, b: nat)
    requires b > 0
    ensures a * b / b == a
  {
    var q := a * b / b;
    assert a * b == q * b + a * b % b;
    if q < a {
      MulMonotone(q + 1, a, b);
    } else if q > a {
      MulMonotone(a + 1, q, b);
    }
  }

  /** Past one second the poster is taken at exactly a tenth of the duration: the half second before the end
      is never the smaller. Up to one second it is the first frame. */
  lemma PosterAtATenth(duration: real)
    ensures PosterTimestamp(duration) == if duration > 1.0 then duration / 10.0 else 0.0
  {
  }

  /** Tile i of a planned layout: ten tiles of 160 by 90 a row, fewer if there are not ten. */
  lemma TileIsAt(duration: real, interval: real, i: nat)
    requires interval > 0.0 && i < PlanSprite(duration, interval).count
    ensures var l, cue := PlanSprite(duration, interval), CueAt(PlanSprite(duration, interval), duration, i);
            && l.count <= 100 && l.columns == (if l.count < 10 then l.count else 10)
            && cue.x == i % l.columns * 160 && cue.y == i / l.columns * 90
            && cue.start == i as real * l.interval
            && cue.end == Max(if i == l.count - 1 then duration else (i + 1) as real * l.interval, cue.start + 0.001)
            && (duration > 0.0 ==> l.interval == duration / (l.count + 1) as real)
  {
    TileCountRange(duration, interval);
  }
}
