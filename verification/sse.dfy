/** The event stream of one video: a snapshot or a resume point, then every stored event above a watermark
    (backend/services/api/sse.py, backend/libs/pipeline/repository.py, SSERepository). The database appears
    as the sequence of its states; each read names the state it sees. */
module Sse {
  import opened Text
  import opened Folds
  import opened Tables
  import opened Projector

  function WireName(e: Event): string {
    if e.Failed? then
      if e.rendition.Some? then "rendition.failed" else "failed"
    else if e.rendition.Some? && e.renditionObjectKey.Some? then "rendition.completed"
    else if e.state == PROBED then "probed"
    else "status"
  }

  /** The wire names, each with the payloads it stands for. */
  lemma WireNames(e: Event)
    ensures WireName(e) == "rendition.failed" <==> e.Failed? && e.rendition.Some?
    ensures WireName(e) == "failed" <==> e.Failed? && e.rendition.None?
    ensures WireName(e) == "rendition.completed" <==> e.StatusChanged? && e.rendition.Some? && e.renditionObjectKey.Some?
    ensures WireName(e) == "probed" <==>
              e.StatusChanged? && (e.rendition.None? || e.renditionObjectKey.None?) && e.state == "probed"
    ensures WireName(e) == "status" <==>
              e.StatusChanged? && (e.rendition.None? || e.renditionObjectKey.None?) && e.state != "probed"
  {
    assert "probed"[0] == 'p' && "status"[0] == 's' && "failed"[0] == 'f' && "rendition.completed"[0] == 'r';
    assert |"rendition.failed"| == 16 && |"rendition.completed"| == 19;
  }

  // ------------------------------------------------------------------------ queries

  /** `WHERE video_id AND id > after ORDER BY id`. */
  function RowsAfter(rows: seq<Logged>, video: string, after: int): seq<Logged> {
    if rows == [] then []
    else
      var last := rows[|rows| - 1];
      RowsAfter(rows[..|rows| - 1], video, after) + (if last.event.video == video && last.rowId > after then [last] else [])
  }

  /** `max(id)`, 0 when there is none. */
  function MaxEventId(rows: seq<Logged>, video: string): nat {
    if rows == [] then 0
    else
      var last := rows[|rows| - 1];
      var before := MaxEventId(rows[..|rows| - 1], video);
      if last.event.video == video && last.rowId > before then last.rowId else before
  }

  lemma {:induction false} RowsAfterMembers(rows: seq<Logged>, video: string, after: int)
    requires RowIdsRise(rows)
    ensures forall row :: row in RowsAfter(rows, video, after) <==> row in rows && row.event.video == video && row.rowId > after
    ensures RowIdsRise(RowsAfter(rows, video, after))
  {
    if rows != [] {
      var init, last := rows[..|rows| - 1], rows[|rows| - 1];
      RowsAfterMembers(init, video, after);
      assert rows == init + [last];
      assert forall row :: row in init ==> row.rowId < last.rowId;
    }
  }

  lemma {:induction false} NothingAboveMax(rows: seq<Logged>, video: string)
    ensures RowsAfter(rows, video, MaxEventId(rows, video)) == []
  {
    if rows != [] {
      var init := rows[..|rows| - 1];
      NothingAboveMax(init, video);
      NothingHigher(init, video, MaxEventId(init, video), MaxEventId(rows, video));
    }
  }

  lemma {:induction false} NothingHigher(rows: seq<Logged>, video: string, low: int, high: int)
    requires RowsAfter(rows, video, low) == [] && low <= high
    ensures RowsAfter(rows, video, high) == []
  {
    if rows != [] {
      NothingHigher(rows[..|rows| - 1], video, low, high);
    }
  }

  lemma {:induction false} RowsAfterConcat(a: seq<Logged>, b: seq<Logged>, video: string, after: int)
    ensures RowsAfter(a + b, video, after) == RowsAfter(a, video, after) + RowsAfter(b, video, after)
  {
    if b == [] {
      assert a + b == a;
    } else {
      RowsAfterConcat(a, b[..|b| - 1], video, after);
      assert (a + b)[..|a + b| - 1] == a + b[..|b| - 1];
    }
  }

  function LastId(seen: seq<Logged>, after: int): int {
    if seen == [] then after else seen[|seen| - 1].rowId
  }

  lemma {:induction false} NarrowerQuery(rows: seq<Logged>, video: string, low: int, high: int)
    requires low <= high
    ensures RowsAfter(RowsAfter(rows, video, low), video, high) == RowsAfter(rows, video, high)
  {
    if rows != [] {
      var init, last := rows[..|rows| - 1], rows[|rows| - 1];
      NarrowerQuery(init, video, low, high);
      assert RowsAfter(init, video, low) + [] == RowsAfter(init, video, low);
      if last.event.video == video && last.rowId > low {
        OneMore(RowsAfter(init, video, low), last, video, high);
      }
    }
  }

  lemma OneMore(rows: seq<Logged>, row: Logged, video: string, after: int)
    ensures RowsAfter(rows + [row], video, after)
            == RowsAfter(rows, video, after) + if row.event.video == video && row.rowId > after then [row] else []
  {
    assert (rows + [row])[..|rows + [row]| - 1] == rows;
  }

  /** Every row a query gives, by position. */
  lemma RowsAfterIndexed(rows: seq<Logged>, video: string, after: int)
    requires RowIdsRise(rows)
    ensures var all := RowsAfter(rows, video, after);
            RowIdsRise(all) && forall i :: 0 <= i < |all| ==> all[i].event.video == video && all[i].rowId > after
  {
    RowsAfterMembers(rows, video, after);
    var all := RowsAfter(rows, video, after);
    assert forall i :: 0 <= i < |all| ==> all[i] in all;
  }

  lemma {:induction false} Suffix(all: seq<Logged>, video: string, n: nat)
    requires RowIdsRise(all) && 0 < n <= |all| && forall i :: 0 <= i < |all| ==> all[i].event.video == video
    ensures RowsAfter(all, video, all[n - 1].rowId) == all[n..]
  {
    var init := all[..|all| - 1];
    if n < |all| {
      Suffix(init, video, n);
      assert all[n..] == init[n..] + [all[|all| - 1]];
    } else {
      NoneAbove(init, video, all[n - 1].rowId);
    }
  }

  lemma {:induction false} NoneAbove(rows: seq<Logged>, video: string, high: int)
    requires forall i :: 0 <= i < |rows| ==> rows[i].rowId <= high
    ensures RowsAfter(rows, video, high) == []
  {
    if rows != [] {
      NoneAbove(rows[..|rows| - 1], video, high);
    }
  }

  /** Asking again from any id already delivered gives exactly the rest. */
  lemma AskAgain(rows: seq<Logged>, video: string, after: int, n: nat)
    requires RowIdsRise(rows) && n <= |RowsAfter(rows, video, after)|
    ensures var all := RowsAfter(rows, video, after);
            RowsAfter(rows, video, LastId(all[..n], after)) == all[n..]
  {
    var all := RowsAfter(rows, video, after);
    RowsAfterIndexed(rows, video, after);
    if 0 < n {
      Suffix(all, video, n);
      NarrowerQuery(rows, video, after, all[n - 1].rowId);
    }
  }

  // --------------------------------------------------------------------- the stream

  ghost predicate Extends(a: seq<Logged>, b: seq<Logged>) {
    |a| <= |b| && b[..|a|] == a
  }

  /** Events are committed in id order and never removed. */
  ghost predicate GrowsInIdOrder(history: seq<Db>) {
    && (forall i :: 0 <= i < |history| ==> RowIdsRise(history[i].events))
    && (forall i, j :: 0 <= i <= j < |history| ==> Extends(history[i].events, history[j].events))
  }

  function StatusIn(db: Db, video: string): Option<Value> {
    Held(db.table, V(video, Status))
  }

  function Video(db: Db, owner: string, video: string): Option<Option<Value>> {
    if OwnedBy(db.table, video, owner) then Some(StatusIn(db, video)) else None
  }

  predicate Terminal(status: Option<Value>) {
    status == Some(Str(FAILED)) || status == Some(Str(COMPLETED))
  }

  /** The stream is over: no such video, or a final status. */
  predicate Over(db: Db, owner: string, video: string) {
    !OwnedBy(db.table, video, owner) || Terminal(StatusIn(db, video))
  }

  datatype Sent =
    | Snapshot(id: nat, status: Option<Value>, renditions: map<string, Option<Value>>)
    | Delta(name: string, id: nat, event: Event)

  function Deltas(rows: seq<Logged>): (sent: seq<Sent>)
    ensures |sent| == |rows|
    ensures forall i :: 0 <= i < |rows| ==> sent[i] == Delta(WireName(rows[i].event), rows[i].rowId, rows[i].event)
  {
    seq(|rows|, i requires 0 <= i < |rows| => Delta(WireName(rows[i].event), rows[i].rowId, rows[i].event))
  }

  /** `WHERE owner_id AND video_id`: each rendition with its status, which may be NULL. */
  function Renditions(db: Db, owner: string, video: string): map<string, Option<Value>> {
    var names := set c | c in db.table && c.R? && c.video == video && c.rcol == RenditionOwner && db.table[c] == Str(owner) :: c.rendition;
    map r | r in names :: Held(db.table, R(video, r, RenditionStatus))
  }

  /** The states the three snapshot reads see. */
  datatype Opening = Opening(video: nat, renditions: nat, watermark: nat)

  /** The states one pass's two reads see: the status first, then the rows. */
  datatype Pass = Pass(status: nat, rows: nat)

  ghost predicate InOrder(opening: Opening, passes: seq<Pass>, states: nat) {
    && opening.video <= opening.renditions <= opening.watermark < states
    && (forall i :: 0 <= i < |passes| ==> opening.watermark <= passes[i].status)
    && Ordered(passes, states)
  }

  function Start(history: seq<Db>, video: string, lastEventId: Option<int>, opening: Opening): int
    requires opening.watermark < |history|
  {
    if lastEventId.Some? then lastEventId.value else MaxEventId(history[opening.watermark].events, video)
  }

  function Greeting(history: seq<Db>, owner: string, video: string, lastEventId: Option<int>, opening: Opening): seq<Sent>
    requires opening.video < |history| && opening.renditions < |history| && opening.watermark < |history|
  {
    if lastEventId.Some? then []
    else [Snapshot(MaxEventId(history[opening.watermark].events, video),
                   StatusIn(history[opening.video], video), Renditions(history[opening.renditions], owner, video))]
  }

  /** The `for` loop over one pass's rows: each is sent and becomes the watermark. */
  method Yield(rows: seq<Logged>, from: int) returns (sent: seq<Sent>, watermark: int)
    ensures sent == Deltas(rows) && watermark == LastId(rows, from)
  {
    sent, watermark := [], from;
    for i := 0 to |rows|
      invariant sent == Deltas(rows[..i]) && watermark == LastId(rows[..i], from)
    {
      sent := sent + [Delta(WireName(rows[i].event), rows[i].rowId, rows[i].event)];
      watermark := rows[i].rowId;
      assert rows[..i + 1] == rows[..i] + [rows[i]];
    }
    assert rows[..|rows|] == rows;
  }

  ghost predicate Ordered(passes: seq<Pass>, states: nat) {
    && InRange(passes, states)
    && (forall i, j :: 0 <= i < j < |passes| ==> passes[i].rows <= passes[j].status)
  }

  ghost predicate InRange(passes: seq<Pass>, states: nat) {
    forall i :: 0 <= i < |passes| ==> passes[i].status <= passes[i].rows < states
  }

  /** The rows sent once `done` passes are over. */
  ghost function DeliveredBy(history: seq<Db>, video: string, start: int, passes: seq<Pass>, done: nat): seq<Logged>
    requires done <= |passes| && InRange(passes, |history|)
  {
    if done == 0 then [] else RowsAfter(history[passes[done - 1].rows].events, video, start)
  }

  lemma PassDelivers(history: seq<Db>, video: string, start: int, passes: seq<Pass>, done: nat, watermark: int)
    requires GrowsInIdOrder(history) && Ordered(passes, |history|) && done < |passes|
    requires watermark == LastId(DeliveredBy(history, video, start, passes, done), start)
    ensures var newRows := RowsAfter(history[passes[done].rows].events, video, watermark);
            && DeliveredBy(history, video, start, passes, done) + newRows == DeliveredBy(history, video, start, passes, done + 1)
            && LastId(newRows, watermark) == LastId(DeliveredBy(history, video, start, passes, done + 1), start)
  {
    var before := DeliveredBy(history, video, start, passes, done);
    Redelivers(if done == 0 then [] else history[passes[done - 1].rows].events, history[passes[done].rows].events, video, start, before, |before|);
  }

  /** Which passes found the stream over: only the last, if it closed. */
  ghost predicate ClosedBy(history: seq<Db>, owner: string, video: string, passes: seq<Pass>, done: nat, closed: bool)
    requires InRange(passes, |history|)
  {
    && done <= |passes|
    && (if closed then 0 < done else done == |passes|)
    && forall i :: 0 <= i < done ==> (Over(history[passes[i].status], owner, video) <==> closed && i == done - 1)
  }

  /** One turn of the loop: two reads, the new rows sent, and whether the status read ends the stream. */
  method OnePass(history: seq<Db>, owner: string, video: string, ghost start: int, passes: seq<Pass>, done: nat, from: int)
    returns (batch: seq<Sent>, watermark: int, over: bool)
    requires GrowsInIdOrder(history) && Ordered(passes, |history|) && done < |passes|
    requires from == LastId(DeliveredBy(history, video, start, passes, done), start)
    ensures Deltas(DeliveredBy(history, video, start, passes, done)) + batch == Deltas(DeliveredBy(history, video, start, passes, done + 1))
    ensures watermark == LastId(DeliveredBy(history, video, start, passes, done + 1), start)
    ensures over == Over(history[passes[done].status], owner, video)
  {
    var row := Video(history[passes[done].status], owner, video);
    var newRows := RowsAfter(history[passes[done].rows].events, video, from);
    PassDelivers(history, video, start, passes, done, from);
    batch, watermark := Yield(newRows, from);
    DeltasConcat(DeliveredBy(history, video, start, passes, done), newRows);
    over := row.None? || Terminal(row.value);
  }

  /** When a pass is the last: the read finds no row of the owner's, or one that says failed or completed. */
  lemma OverMeans(db: Db, owner: string, video: string)
    ensures Over(db, owner, video) <==>
              || V(video, VideoRow) !in db.table || Held(db.table, V(video, VideoOwner)) != Some(Str(owner))
              || Held(db.table, V(video, Status)) in {Some(Str("failed")), Some(Str("completed"))}
  {
  }

  /** The `while True` loop. */
  method Follow(history: seq<Db>, owner: string, video: string, start: int, passes: seq<Pass>)
    returns (sent: seq<Sent>, done: nat, closed: bool)
    requires GrowsInIdOrder(history) && Ordered(passes, |history|)
    ensures ClosedBy(history, owner, video, passes, done, closed)
    ensures forall i :: 0 <= i < done ==>
              var t := history[passes[i].status].table;
              (|| V(video, VideoRow) !in t || Held(t, V(video, VideoOwner)) != Some(Str(owner))
               || Held(t, V(video, Status)) in {Some(Str("failed")), Some(Str("completed"))}) <==> closed && i == done - 1
    ensures sent == Deltas(DeliveredBy(history, video, start, passes, done))
  {
    var watermark := start;
    sent, done, closed := [], 0, false;
    while done < |passes| && !closed
      invariant done <= |passes| && (closed ==> 0 < done)
      invariant sent == Deltas(DeliveredBy(history, video, start, passes, done))
      invariant watermark == LastId(DeliveredBy(history, video, start, passes, done), start)
      invariant forall i :: 0 <= i < done ==> (Over(history[passes[i].status], owner, video) <==> closed && i == done - 1)
    {
      var batch;
      batch, watermark, closed := OnePass(history, owner, video, start, passes, done, watermark);
      sent := sent + batch;
      done := done + 1;
    }
    forall i | 0 <= i < done
      ensures var t := history[passes[i].status].table;
              (|| V(video, VideoRow) !in t || Held(t, V(video, VideoOwner)) != Some(Str(owner))
               || Held(t, V(video, Status)) in {Some(Str("failed")), Some(Str("completed"))}) <==> closed && i == done - 1
    {
      OverMeans(history[passes[i].status], owner, video);
    }
  }

  /** The greeting, then exactly the rows above the watermark that the last pass could read. */
  ghost predicate Streamed(history: seq<Db>, owner: string, video: string, lastEventId: Option<int>, opening: Opening,
                           passes: seq<Pass>, sent: seq<Sent>, done: nat, closed: bool)
    requires InOrder(opening, passes, |history|)
  {
    && ClosedBy(history, owner, video, passes, done, closed)
    && sent == Greeting(history, owner, video, lastEventId, opening)
               + Deltas(DeliveredBy(history, video, Start(history, video, lastEventId, opening), passes, done))
  }

  /** The generator, run for the given passes or until it returns by itself. Whatever the passes before,
      what has been sent is the greeting and exactly the events stored above the starting watermark when the
      last pass read them: a wake-up that was lost or repeated changes nothing. */
  method Stream(history: seq<Db>, owner: string, video: string, lastEventId: Option<int>, opening: Opening, passes: seq<Pass>)
    returns (sent: seq<Sent>, done: nat, closed: bool)
    requires GrowsInIdOrder(history) && InOrder(opening, passes, |history|)
    ensures lastEventId.None? && Video(history[opening.video], owner, video).None? ==> sent == [] && closed && done == 0
    ensures lastEventId.Some? || Video(history[opening.video], owner, video).Some? ==>
              && Streamed(history, owner, video, lastEventId, opening, passes, sent, done, closed)
              && forall i :: 0 <= i < done ==>
                   var t := history[passes[i].status].table;
                   (|| V(video, VideoRow) !in t || Held(t, V(video, VideoOwner)) != Some(Str(owner))
                    || Held(t, V(video, Status)) in {Some(Str("failed")), Some(Str("completed"))}) <==> closed && i == done - 1
  {
    sent := [];
    var watermark: int;
    if lastEventId.None? {
      var row := Video(history[opening.video], owner, video);
      var renditions := Renditions(history[opening.renditions], owner, video);
      watermark := MaxEventId(history[opening.watermark].events, video);
      if row.None? {
        return [], 0, true;
      }
      sent := [Snapshot(MaxEventId(history[opening.watermark].events, video), row.value, renditions)];
    } else {
      watermark := lastEventId.value;
    }
    var deltas;
    deltas, done, closed := Follow(history, owner, video, watermark, passes);
    sent := sent + deltas;
  }

  lemma DeltasConcat(a: seq<Logged>, b: seq<Logged>)
    ensures Deltas(a) + Deltas(b) == Deltas(a + b)
  {
  }

  /** A client that got the first `n` of what an earlier state held, and asks a later state for what comes
      after the last id it saw, ends with exactly what the later state holds: no gap, no repeat. */
  lemma Redelivers(earlier: seq<Logged>, later: seq<Logged>, video: string, start: int, delivered: seq<Logged>, n: nat)
    requires Extends(earlier, later) && RowIdsRise(later)
    requires n == |delivered| <= |RowsAfter(earlier, video, start)| && delivered == RowsAfter(earlier, video, start)[..n]
    ensures delivered + RowsAfter(later, video, LastId(delivered, start)) == RowsAfter(later, video, start)
  {
    assert later == earlier + later[|earlier|..];
    RowsAfterConcat(earlier, later[|earlier|..], video, start);
    assert RowsAfter(later, video, start)[..n] == delivered;
    AskAgain(later, video, start, n);
  }

  /** Dropped after any number of deltas and resumed with the last id seen: the two connections together
      deliver what one uninterrupted connection would have, in rising id order. */
  lemma ResumeHasNoGap(history: seq<Db>, video: string, start: int, first: nat, second: nat, n: nat)
    requires GrowsInIdOrder(history) && first <= second < |history|
    requires n <= |RowsAfter(history[first].events, video, start)|
    ensures var got := RowsAfter(history[first].events, video, start)[..n];
            var rest := RowsAfter(history[second].events, video, LastId(got, start));
            && got + rest == RowsAfter(history[second].events, video, start)
            && RowIdsRise(got + rest)
            && forall row :: row in history[second].events && row.event.video == video && row.rowId > start <==> row in got + rest
  {
    var got := RowsAfter(history[first].events, video, start)[..n];
    Redelivers(history[first].events, history[second].events, video, start, got, n);
    RowsAfterMembers(history[second].events, video, start);
  }

  // ------------------------------------------------------------- closing on a status

  /** A committed change: the projector's transaction, or anyone else's write to the tables. */
  datatype Change = Commit(event: Event) | Elsewhere(table: Table)

  function Changed(db: Db, change: Change): Db {
    match change
    case Commit(e) => Transaction(db, e)
    case Elsewhere(table) => db.(table := table)
  }

  function After(db: Db, changes: seq<Change>): Db {
    Fold(Changed, db, changes)
  }

  /** An event id names one event. */
  ghost predicate IdsNameEvents(db: Db, changes: seq<Change>) {
    && (forall i, k :: 0 <= i < |db.events| && 0 <= k < |changes| && changes[k].Commit? && changes[k].event.id == db.events[i].event.id
          ==> changes[k].event == db.events[i].event)
    && (forall j, k :: 0 <= j < k < |changes| && changes[j].Commit? && changes[k].Commit? && changes[j].event.id == changes[k].event.id
          ==> changes[j].event == changes[k].event)
  }

  function StatusSet(e: Event): Value {
    Str(if e.StatusChanged? then e.state else FAILED)
  }

  predicate Among(rows: seq<Logged>, row: Logged) {
    exists k :: 0 <= k < |rows| && rows[k] == row
  }

  predicate CommittedIn(changes: seq<Change>, e: Event) {
    exists k :: 0 <= k < |changes| && changes[k] == Commit(e)
  }

  ghost predicate FromHistory(rows: seq<Logged>, db: Db, changes: seq<Change>) {
    forall i :: 0 <= i < |rows| ==> Among(db.events, rows[i]) || CommittedIn(changes, rows[i].event)
  }

  lemma CommittedStays(changes: seq<Change>, e: Event)
    requires changes != []
    ensures CommittedIn(changes[..|changes| - 1], e) ==> CommittedIn(changes, e)
  {
    var init := changes[..|changes| - 1];
    if k :| 0 <= k < |init| && init[k] == Commit(e) {
      assert changes[k] == init[k];
    }
  }

  lemma {:induction false} RowsFromHistory(db: Db, changes: seq<Change>)
    ensures FromHistory(After(db, changes).events, db, changes)
  {
    var rows := After(db, changes).events;
    forall i | 0 <= i < |rows|
      ensures Among(db.events, rows[i]) || CommittedIn(changes, rows[i].event)
    {
      if changes == [] {
        assert db.events[i] == rows[i];
      } else {
        var before := After(db, changes[..|changes| - 1]).events;
        RowsFromHistory(db, changes[..|changes| - 1]);
        CommittedStays(changes, rows[i].event);
        if i < |before| {
          assert rows[i] == before[i];
        } else {
          assert changes[|changes| - 1] == Commit(rows[i].event);
        }
      }
    }
  }

  ghost predicate Stored(rows: seq<Logged>, e: Event) {
    exists i :: 0 <= i < |rows| && rows[i].event == e
  }

  /** The change writes the video's status: an event of the video from its owner, or another writer's new
      value. */
  predicate Writes(db: Db, change: Change, video: string) {
    match change
    case Commit(e) => e.video == video && OwnedBy(db.table, video, e.owner)
    case Elsewhere(table) => Held(table, V(video, Status)) != StatusIn(db, video)
  }

  /** The last change that wrote the video's status. */
  function LastWriter(db: Db, changes: seq<Change>, video: string): (k: Option<nat>)
    ensures k.Some? ==> k.value < |changes|
  {
    if changes == [] then None
    else
      var init, last := changes[..|changes| - 1], changes[|changes| - 1];
      if Writes(After(db, init), last, video) then Some(|init|) else LastWriter(db, init, video)
  }

  /** The projection of an event sets the status of its own video, if the owner matches, and no other. */
  lemma StatusAfter(t: Table, e: Event, video: string)
    ensures Held(Projected(t, e), V(video, Status))
            == if e.video == video && OwnedBy(t, video, e.owner) then Some(StatusSet(e)) else Held(t, V(video, Status))
  {
    var owned := OwnedBy(t, e.video, e.owner);
    StatusWritten(e, owned, video);
    UpsertedCell(t, e, EventWrites(e, owned), V(video, Status));
  }

  lemma StatusWritten(e: Event, owned: bool, video: string)
    ensures var w := EventWrites(e, owned);
            && (V(video, Status) in w <==> owned && e.video == video)
            && (V(video, Status) in w ==> w[V(video, Status)] == StatusSet(e))
  {
    var c := V(video, Status);
    assert c !in RenditionWrites(e);
    assert Status !in STATUS_FIELDS;
  }

  /** A committed event's row is in the table afterwards. */
  lemma CommitStores(db: Db, e: Event)
    requires HasVideo(db.table, e.video)
    requires forall i :: 0 <= i < |db.events| && db.events[i].event.id == e.id ==> db.events[i].event == e
    ensures exists i :: 0 <= i < |Transaction(db, e).events| && Transaction(db, e).events[i].event == e
  {
    if Known(db.events, e.id) {
      var i :| 0 <= i < |db.events| && db.events[i].event.id == e.id;
      assert Transaction(db, e).events[i].event == e;
    } else {
      assert Transaction(db, e).events[|db.events|].event == e;
    }
  }

  lemma StoredStays(db: Db, change: Change, e: Event)
    requires Stored(db.events, e)
    ensures Stored(Changed(db, change).events, e)
  {
    var i :| 0 <= i < |db.events| && db.events[i].event == e;
    assert Changed(db, change).events[i] == db.events[i];
  }

  lemma SameIdSameEvent(db: Db, changes: seq<Change>, rows: seq<Logged>, e: Event)
    requires IdsNameEvents(db, changes) && changes != [] && changes[|changes| - 1] == Commit(e)
    requires FromHistory(rows, db, changes[..|changes| - 1])
    ensures forall i :: 0 <= i < |rows| && rows[i].event.id == e.id ==> rows[i].event == e
  {
    forall i | 0 <= i < |rows| && rows[i].event.id == e.id
      ensures rows[i].event == e
    {
      if Among(db.events, rows[i]) {
        var k :| 0 <= k < |db.events| && db.events[k] == rows[i];
        assert db.events[k].event.id == e.id;
      } else {
        var init := changes[..|changes| - 1];
        assert CommittedIn(init, rows[i].event);
        var k :| 0 <= k < |init| && init[k] == Commit(rows[i].event);
        assert changes[k] == Commit(rows[i].event);
      }
    }
  }

  lemma UnwrittenStays(db: Db, change: Change, video: string)
    requires !Writes(db, change, video)
    ensures StatusIn(Changed(db, change), video) == StatusIn(db, video)
  {
    if change.Commit? && HasVideo(db.table, change.event.video) {
      StatusAfter(db.table, change.event, video);
    }
  }

  /** A status nobody wrote is the initial one. A status the projector wrote last is the one its event
      carries, and that event's own row is stored. */
  lemma {:induction false} StatusHasItsRow(db: Db, changes: seq<Change>, video: string)
    requires IdsNameEvents(db, changes)
    ensures var d, k := After(db, changes), LastWriter(db, changes, video);
            && (k.None? ==> StatusIn(d, video) == StatusIn(db, video))
            && (k.Some? && changes[k.value].Commit? ==>
                  var e := changes[k.value].event;
                  e.video == video && StatusIn(d, video) == Some(StatusSet(e)) && Stored(d.events, e))
  {
    if changes != [] {
      var init, last := changes[..|changes| - 1], changes[|changes| - 1];
      var before := After(db, init);
      if !Writes(before, last, video) {
        StatusHasItsRow(db, init, video);
        UnwrittenStays(before, last, video);
        var k := LastWriter(db, init, video);
        if k.Some? && init[k.value].Commit? {
          StoredStays(before, last, init[k.value].event);
        }
      } else if last.Commit? {
        StatusAfter(before.table, last.event, video);
        RowsFromHistory(db, init);
        SameIdSameEvent(db, changes, before.events, last.event);
        CommitStores(before, last.event);
      }
    }
  }

  lemma {:induction false} RowIdsKeepRising(db: Db, changes: seq<Change>)
    requires Rising(db.events, db.nextId)
    ensures Rising(After(db, changes).events, After(db, changes).nextId)
  {
    if changes != [] {
      RowIdsKeepRising(db, changes[..|changes| - 1]);
    }
  }

  lemma {:induction false} EventsExtend(db: Db, changes: seq<Change>, more: seq<Change>)
    ensures Extends(After(db, changes).events, After(db, changes + more).events)
  {
    if more == [] {
      assert changes + more == changes;
    } else {
      var init, last := more[..|more| - 1], more[|more| - 1];
      EventsExtend(db, changes, init);
      assert (changes + more)[..|changes + more| - 1] == changes + init;
    }
  }

  /** The event that wrote the status read first is among the rows read second: sent above the watermark the
      connection started from, or at or below it. */
  lemma ClosesAfterItsEvent(db: Db, seen: seq<Change>, more: seq<Change>, video: string, start: int, k: nat)
    requires Rising(db.events, db.nextId) && IdsNameEvents(db, seen)
    requires LastWriter(db, seen, video) == Some(k) && seen[k].Commit?
    ensures StatusIn(After(db, seen), video) == Some(StatusSet(seen[k].event))
    ensures var rows := After(db, seen + more).events;
            && Stored(rows, seen[k].event)
            && forall row :: row in rows && row.event == seen[k].event ==> row.rowId <= start || row in RowsAfter(rows, video, start)
  {
    var before, rows := After(db, seen).events, After(db, seen + more).events;
    StatusHasItsRow(db, seen, video);
    EventsExtend(db, seen, more);
    RowIdsKeepRising(db, seen + more);
    var i :| 0 <= i < |before| && before[i].event == seen[k].event;
    assert rows[i] == before[i];
    RowsAfterMembers(rows, video, start);
  }

  // ------------------------------------------------- the stream over a run of changes

  /** The states the reads see are states of one run of changes, in order. */
  ghost predicate StatesOf(db: Db, changes: seq<Change>, cuts: seq<nat>, history: seq<Db>) {
    && |cuts| == |history|
    && (forall i :: 0 <= i < |cuts| ==> cuts[i] <= |changes| && history[i] == After(db, changes[..cuts[i]]))
    && (forall i, j :: 0 <= i <= j < |cuts| ==> cuts[i] <= cuts[j])
  }

  lemma CutsExtend(db: Db, changes: seq<Change>, a: nat, b: nat)
    requires Rising(db.events, db.nextId) && a <= b <= |changes|
    ensures RowIdsRise(After(db, changes[..b]).events) && Extends(After(db, changes[..a]).events, After(db, changes[..b]).events)
  {
    EventsExtend(db, changes[..a], changes[a..b]);
    RowIdsKeepRising(db, changes[..b]);
    assert changes[..a] + changes[a..b] == changes[..b];
  }

  /** Every run of changes commits events in id order. */
  lemma RunsGrow(db: Db, changes: seq<Change>, cuts: seq<nat>, history: seq<Db>)
    requires Rising(db.events, db.nextId) && StatesOf(db, changes, cuts, history)
    ensures GrowsInIdOrder(history)
  {
    forall i, j | 0 <= i <= j < |history|
      ensures RowIdsRise(history[j].events) && Extends(history[i].events, history[j].events)
    {
      CutsExtend(db, changes, cuts[i], cuts[j]);
    }
    assert forall i :: 0 <= i < |history| ==> Extends(history[i].events, history[i].events);
  }

  lemma PrefixNames(db: Db, changes: seq<Change>, n: nat)
    requires IdsNameEvents(db, changes) && n <= |changes|
    ensures IdsNameEvents(db, changes[..n])
  {
  }

  /** A connection that closed itself on a status the projector wrote has sent the very event that wrote it,
      or started at or above that event's row. */
  lemma StreamClosesAfterItsEvent(db: Db, changes: seq<Change>, cuts: seq<nat>, history: seq<Db>, owner: string, video: string,
                                  lastEventId: Option<int>, opening: Opening, passes: seq<Pass>, sent: seq<Sent>, done: nat, k: nat)
    requires Rising(db.events, db.nextId) && IdsNameEvents(db, changes) && StatesOf(db, changes, cuts, history)
    requires InOrder(opening, passes, |history|) && Streamed(history, owner, video, lastEventId, opening, passes, sent, done, true)
    requires LastWriter(db, changes[..cuts[passes[done - 1].status]], video) == Some(k) && changes[k].Commit?
    ensures var e := changes[k].event;
            && StatusIn(history[passes[done - 1].status], video) == Some(StatusSet(e))
            && exists row: Logged :: row.event == e && row in history[passes[done - 1].rows].events
                             && (row.rowId <= Start(history, video, lastEventId, opening) || Delta(WireName(e), row.rowId, e) in sent)
  {
    var p, start := passes[done - 1], Start(history, video, lastEventId, opening);
    var seen, upto := changes[..cuts[p.status]], changes[..cuts[p.rows]];
    var rows := history[p.rows].events;
    PrefixNames(db, changes, cuts[p.status]);
    assert seen + changes[cuts[p.status]..cuts[p.rows]] == upto;
    ClosesAfterItsEvent(db, seen, changes[cuts[p.status]..cuts[p.rows]], video, start, k);
    StoredIsSent(rows, video, start, changes[k].event, Greeting(history, owner, video, lastEventId, opening), sent);
  }

  lemma StoredIsSent(rows: seq<Logged>, video: string, start: int, e: Event, greeting: seq<Sent>, sent: seq<Sent>)
    requires Stored(rows, e) && sent == greeting + Deltas(RowsAfter(rows, video, start))
    requires forall row :: row in rows && row.event == e ==> row.rowId <= start || row in RowsAfter(rows, video, start)
    ensures exists row: Logged :: row.event == e && row in rows && (row.rowId <= start || Delta(WireName(e), row.rowId, e) in sent)
  {
    var i :| 0 <= i < |rows| && rows[i].event == e;
    assert rows[i] in rows;
    SentAbove(rows, video, start, rows[i], greeting, sent);
  }

  lemma SentAbove(rows: seq<Logged>, video: string, start: int, row: Logged, greeting: seq<Sent>, sent: seq<Sent>)
    requires row.rowId <= start || row in RowsAfter(rows, video, start)
    requires sent == greeting + Deltas(RowsAfter(rows, video, start))
    ensures row.rowId <= start || Delta(WireName(row.event), row.rowId, row.event) in sent
  {
    var after := RowsAfter(rows, video, start);
    if i :| 0 <= i < |after| && after[i] == row {
      assert sent[|greeting| + i] == Deltas(after)[i];
    }
  }

  // ----------------------------------------------------------- what a connection carries

  lemma {:induction false} MaxIsHighest(rows: seq<Logged>, video: string)
    ensures forall row :: row in rows && row.event.video == video ==> row.rowId <= MaxEventId(rows, video)
    ensures MaxEventId(rows, video) == 0 || exists row :: row in rows && row.event.video == video && row.rowId == MaxEventId(rows, video)
  {
    if rows != [] {
      var init, last := rows[..|rows| - 1], rows[|rows| - 1];
      MaxIsHighest(init, video);
      assert rows == init + [last];
      if row: Logged :| row in init && row.event.video == video && row.rowId == MaxEventId(init, video) {
        assert row in rows;
      }
      assert last in rows;
    }
  }

  /** A fresh connection is greeted with one snapshot: the status its first read saw, the owner's renditions its
      second saw with theirs, and the highest event id its third saw. A resumed one is not greeted. */
  lemma GreetingCarries(history: seq<Db>, owner: string, video: string, lastEventId: Option<int>, opening: Opening)
    requires opening.video < |history| && opening.renditions < |history| && opening.watermark < |history|
    ensures var g := Greeting(history, owner, video, lastEventId, opening);
            if lastEventId.Some? then g == []
            else
              && |g| == 1 && g[0].Snapshot? && g[0].status == Held(history[opening.video].table, V(video, Status))
              && (forall r :: r in g[0].renditions <==> Held(history[opening.renditions].table, R(video, r, RenditionOwner)) == Some(Str(owner)))
              && (forall r :: r in g[0].renditions ==> g[0].renditions[r] == Held(history[opening.renditions].table, R(video, r, RenditionStatus)))
              && g[0].id == Start(history, video, lastEventId, opening)
              && (forall row :: row in history[opening.watermark].events && row.event.video == video ==> row.rowId <= g[0].id)
              && (g[0].id == 0 || exists row :: row in history[opening.watermark].events && row.event.video == video && row.rowId == g[0].id)
  {
    if lastEventId.None? {
      MaxIsHighest(history[opening.watermark].events, video);
      RenditionsAre(history[opening.renditions], owner, video);
    }
  }

  lemma RenditionsAre(db: Db, owner: string, video: string)
    ensures forall r :: r in Renditions(db, owner, video) <==> Held(db.table, R(video, r, RenditionOwner)) == Some(Str(owner))
    ensures forall r :: r in Renditions(db, owner, video) ==> Renditions(db, owner, video)[r] == Held(db.table, R(video, r, RenditionStatus))
  {
    forall r
      ensures r in Renditions(db, owner, video) <==> Held(db.table, R(video, r, RenditionOwner)) == Some(Str(owner))
    {
      if Held(db.table, R(video, r, RenditionOwner)) == Some(Str(owner)) {
        assert R(video, r, RenditionOwner) in db.table;
      }
    }
  }

  /** The deltas are the rows: each carries its row's id, the event's wire name and the event, every row of
      the video above the watermark is there, and none else. */
  lemma DeltasCarryRows(rows: seq<Logged>, video: string, start: int)
    requires RowIdsRise(rows)
    ensures var sent := Deltas(RowsAfter(rows, video, start));
            && (forall i :: 0 <= i < |sent| ==>
                  sent[i].Delta? && sent[i].id > start && sent[i].event.video == video && sent[i].name == WireName(sent[i].event)
                  && Logged(sent[i].id, sent[i].event) in rows)
            && (forall row :: row in rows && row.event.video == video && row.rowId > start ==> Delta(WireName(row.event), row.rowId, row.event) in sent)
            && (forall i, k :: 0 <= i < k < |sent| ==> sent[i].id < sent[k].id)
  {
    var after := RowsAfter(rows, video, start);
    var sent := Deltas(after);
    RowsAfterMembers(rows, video, start);
    forall i | 0 <= i < |sent|
      ensures sent[i].Delta? && Logged(sent[i].id, sent[i].event) in rows && sent[i].event.video == video && sent[i].id > start
    {
      assert after[i] in after && after[i] == Logged(sent[i].id, sent[i].event);
    }
    forall row | row in rows && row.event.video == video && row.rowId > start
      ensures Delta(WireName(row.event), row.rowId, row.event) in sent
    {
      var i :| 0 <= i < |after| && after[i] == row;
      assert sent[i] == Delta(WireName(row.event), row.rowId, row.event);
    }
  }
}
