/** The page's event hook: what each wire event does to the cached video and renditions, and when the
    connection is closed for good or tried again (frontend/src/hooks/useVideoEvents.ts). */
module Browser {
  import opened Text
  import opened Folds
  import opened Tables
  import opened Projector
  import opened Sse

  datatype Connection = Connecting | Open | Reconnecting | Unauthorized | Closed

  datatype VideoCache = VideoCache(status: string, failure: Option<string>, duration: Option<real>,
                                   width: Option<int>, height: Option<int>, expected: Option<seq<string>>)

  datatype Entry = Entry(rendition: string, status: Option<string>, objectKey: Option<string>, failure: Option<string>)

  /** `live`: an EventSource is open. `probing`: the request that checks the token is in flight. */
  datatype Hook = Hook(cancelled: bool, closedForGood: bool, live: bool, probing: bool, timer: Option<nat>,
                       attempt: nat, state: Connection, video: Option<VideoCache>, renditions: seq<Entry>)

  const MAX_BACKOFF_MS: nat := 15_000

  function Doubled(n: nat): nat {
    if n == 0 then 1 else 2 * Doubled(n - 1)
  }

  function Backoff(attempt: nat): nat
    requires attempt > 0
  {
    if 1000 * Doubled(attempt - 1) < MAX_BACKOFF_MS then 1000 * Doubled(attempt - 1) else MAX_BACKOFF_MS
  }

  lemma {:induction false} DoubledGrows(a: nat, b: nat)
    requires a <= b
    ensures 1 <= Doubled(a) <= Doubled(b)
  {
    if b > a {
      DoubledGrows(a, b - 1);
    } else if a > 0 {
      DoubledGrows(a - 1, a - 1);
    }
  }

  /** Waits grow with the attempt, between one second and fifteen, and reach fifteen at the fifth. */
  lemma BackoffGrows(a: nat, b: nat)
    requires 0 < a <= b
    ensures 1000 <= Backoff(a) <= Backoff(b) <= MAX_BACKOFF_MS
    ensures Backoff(a) == MAX_BACKOFF_MS <==> a >= 5
  {
    DoubledGrows(a - 1, b - 1);
    assert Doubled(3) == 8 && Doubled(4) == 16;
    if a >= 5 {
      DoubledGrows(4, a - 1);
    } else {
      DoubledGrows(a - 1, 3);
    }
  }

  // ----------------------------------------------------------------------- handlers

  function Without(entries: seq<Entry>, rendition: string): seq<Entry> {
    if entries == [] then []
    else
      var last := entries[|entries| - 1];
      Without(entries[..|entries| - 1], rendition) + (if last.rendition != rendition then [last] else [])
  }

  /** `old ? {...old, ...patch} : old`, for a status patch. */
  function Patched(video: Option<VideoCache>, status: string): Option<VideoCache> {
    match video
    case None => None
    case Some(v) => Some(v.(status := status))
  }

  function FailedVideo(video: Option<VideoCache>, reason: string): Option<VideoCache> {
    match video
    case None => None
    case Some(v) => Some(v.(status := FAILED, failure := Some(reason)))
  }

  function ForGood(h: Hook): Hook {
    h.(closedForGood := true, live := false, state := Closed)
  }

  predicate Final(status: string) {
    status == COMPLETED || status == FAILED
  }

  function SnapshotSeen(h: Hook, video: VideoCache, entries: seq<Entry>): Hook {
    var h' := h.(video := Some(video), renditions := entries);
    if Final(video.status) then ForGood(h') else h'
  }

  function EventSeen(h: Hook, e: Event): Hook {
    match e
    case Failed(_, _, _, reason, rendition) =>
      var h' := h.(video := FailedVideo(h.video, reason));
      ForGood(if rendition.None? then h'
              else h'.(renditions := Without(h.renditions, rendition.value) + [Entry(rendition.value, Some(FAILED), None, Some(reason))]))
    case StatusChanged(_, _, _, state, rendition, duration, width, height, expected, _, _, _, _, key, _) =>
      if WireName(e) == "rendition.completed" then
        h.(renditions := Without(h.renditions, rendition.value) + [Entry(rendition.value, Some(COMPLETED), key, None)])
      else if WireName(e) == "probed" then
        (match h.video
         case None => h
         case Some(v) => h.(video := Some(v.(status := state, duration := duration, width := width, height := height, expected := expected))))
      else
        var h' := h.(video := Patched(h.video, state));
        if state == COMPLETED then ForGood(h') else h'
  }

  datatype Action =
    | Opened
    | SnapshotArrives(video: VideoCache, entries: seq<Entry>)
    | EventArrives(event: Event)
    | ConnectionDrops
    | ProbeReturns(status401: bool)
    | TimerFires
    | Unmount

  function Connected(h: Hook): Hook {
    if h.cancelled then h
    else h.(state := if h.attempt == 0 then Connecting else Reconnecting, live := true)
  }

  /** What cannot happen changes nothing: a closed EventSource delivers no event. */
  function Stepped(h: Hook, a: Action): Hook {
    match a
    case Opened => if h.live then h.(attempt := 0, state := Open) else h
    case SnapshotArrives(video, entries) => if h.live then SnapshotSeen(h, video, entries) else h
    case EventArrives(e) => if h.live then EventSeen(h, e) else h
    case ConnectionDrops => if h.live then h.(live := false, probing := !h.cancelled && !h.closedForGood) else h
    case ProbeReturns(status401) =>
      if !h.probing then h
      else if status401 then h.(probing := false, state := Unauthorized)
      else if h.cancelled then h.(probing := false)
      else h.(probing := false, attempt := h.attempt + 1, state := Reconnecting, timer := Some(Backoff(h.attempt + 1)))
    case TimerFires => if h.timer.Some? then Connected(h.(timer := None)) else h
    case Unmount => h.(cancelled := true, timer := None, live := false)
  }

  /** The mutable closure of the effect. */
  class VideoEvents {
    var cancelled: bool
    var closedForGood: bool
    var live: bool
    var probing: bool
    var timer: Option<nat>
    var attempt: nat
    var state: Connection
    var video: Option<VideoCache>
    var renditions: seq<Entry>

    function View(): Hook
      reads this
    {
      Hook(cancelled, closedForGood, live, probing, timer, attempt, state, video, renditions)
    }

    /** Mounting: with a token it connects at once; the query cache is whatever an earlier mount left. */
    constructor (token: bool, video: Option<VideoCache>, renditions: seq<Entry>)
      ensures View() == Mounted(token, video, renditions)
    {
      cancelled, closedForGood, probing, timer, attempt := false, false, false, None, 0;
      live, state := token, if token then Connecting else Unauthorized;
      this.video, this.renditions := video, renditions;
    }

    method Connect()
      modifies this
      ensures View() == Connected(old(View()))
    {
      if cancelled {
        return;
      }
      state := if attempt == 0 then Connecting else Reconnecting;
      live := true;
    }

    method CloseForGood()
      modifies this
      ensures View() == ForGood(old(View()))
    {
      closedForGood := true;
      live := false;
      state := Closed;
    }

    method OnOpen()
      requires live
      modifies this
      ensures View() == Stepped(old(View()), Opened)
    {
      attempt := 0;
      state := Open;
    }

    method OnSnapshot(video: VideoCache, entries: seq<Entry>)
      requires live
      modifies this
      ensures View() == Stepped(old(View()), SnapshotArrives(video, entries))
    {
      this.video := Some(video);
      renditions := entries;
      if video.status == COMPLETED || video.status == FAILED {
        CloseForGood();
      }
    }

    /** The listener the event's wire name selects. */
    method OnEvent(e: Event)
      requires live
      modifies this
      ensures View() == Stepped(old(View()), EventArrives(e))
    {
      var name := WireName(e);
      if name == "status" {
        video := Patched(video, e.state);
        if e.state == COMPLETED {
          CloseForGood();
        }
      } else if name == "probed" {
        if video.Some? {
          video := Some(video.value.(status := e.state, duration := e.duration, width := e.width, height := e.height, expected := e.expected));
        }
      } else if name == "rendition.completed" {
        renditions := Without(renditions, e.rendition.value) + [Entry(e.rendition.value, Some(COMPLETED), e.renditionObjectKey, None)];
      } else if name == "rendition.failed" {
        renditions := Without(renditions, e.rendition.value) + [Entry(e.rendition.value, Some(FAILED), None, Some(e.reason))];
        video := FailedVideo(video, e.reason);
        CloseForGood();
      } else {
        video := FailedVideo(video, e.reason);
        CloseForGood();
      }
    }

    method OnError()
      requires live
      modifies this
      ensures View() == Stepped(old(View()), ConnectionDrops)
    {
      live := false;
      probing := false;
      if cancelled || closedForGood {
        return;
      }
      probing := true;
    }

    /** The rest of reconnectAfterCheckingAuth, once its request has an answer or has failed. */
    method OnProbeReturn(status401: bool)
      requires probing
      modifies this
      ensures View() == Stepped(old(View()), ProbeReturns(status401))
    {
      probing := false;
      if status401 {
        state := Unauthorized;
        return;
      }
      if cancelled {
        return;
      }
      attempt := attempt + 1;
      state := Reconnecting;
      timer := Some(Backoff(attempt));
    }

    method OnTimer()
      requires timer.Some?
      modifies this
      ensures View() == Stepped(old(View()), TimerFires)
    {
      timer := None;
      Connect();
    }

    method OnUnmount()
      modifies this
      ensures View() == Stepped(old(View()), Unmount)
    {
      cancelled := true;
      timer := None;
      live := false;
    }
  }

  function Mounted(token: bool, video: Option<VideoCache>, renditions: seq<Entry>): Hook {
    Hook(false, false, token, false, None, 0, if token then Connecting else Unauthorized, video, renditions)
  }

  function RunHook(h: Hook, actions: seq<Action>): Hook {
    Fold(Stepped, h, actions)
  }

  // ------------------------------------------------------------- closing and retrying

  predicate Idle(h: Hook) {
    !h.live && !h.probing && h.timer.None?
  }

  predicate OneAtMost(h: Hook) {
    && !(h.live && h.probing) && !(h.live && h.timer.Some?) && !(h.probing && h.timer.Some?)
  }

  ghost predicate Sound(h: Hook) {
    && OneAtMost(h)
    && (h.timer.Some? ==> h.attempt > 0 && h.timer.value == Backoff(h.attempt))
    && (h.cancelled ==> !h.live && h.timer.None?)
    && (h.closedForGood ==> Idle(h) && (h.video.Some? ==> Final(h.video.value.status)))
    && (h.state == Unauthorized ==> Idle(h))
    && (Idle(h) ==> h.cancelled || h.closedForGood || h.state == Unauthorized)
  }

  lemma StepSound(h: Hook, a: Action)
    requires Sound(h)
    ensures Sound(Stepped(h, a))
  {
  }

  /** Over every run: at most one of an open source, a token check and a pending retry; a retry waits what
      the attempt count says; closed for good, it is idle and shows a final status; and it is idle only when
      unmounted, closed for good or unauthorized, so a live video is never forgotten. */
  lemma {:induction false} HookSound(token: bool, video: Option<VideoCache>, renditions: seq<Entry>, actions: seq<Action>)
    ensures Sound(RunHook(Mounted(token, video, renditions), actions))
  {
    if actions != [] {
      HookSound(token, video, renditions, actions[..|actions| - 1]);
      StepSound(RunHook(Mounted(token, video, renditions), actions[..|actions| - 1]), actions[|actions| - 1]);
    }
  }

  /** Closed for good, nothing ever reconnects or changes what the page shows. */
  lemma {:induction false} ClosedNeverReconnects(h: Hook, actions: seq<Action>)
    requires Sound(h) && h.closedForGood
    ensures RunHook(h, actions) == h || RunHook(h, actions) == h.(cancelled := true)
  {
    if actions != [] {
      ClosedNeverReconnects(h, actions[..|actions| - 1]);
    }
  }

  // -------------------------------------------------------------------- three folds

  /** The cached status of one rendition. */
  function Listed(entries: seq<Entry>, rendition: string): Option<string> {
    if entries == [] then None
    else if entries[|entries| - 1].rendition == rendition then entries[|entries| - 1].status
    else Listed(entries[..|entries| - 1], rendition)
  }

  lemma {:induction false} ListedWithout(entries: seq<Entry>, gone: string, rendition: string)
    requires rendition != gone
    ensures Listed(Without(entries, gone), rendition) == Listed(entries, rendition)
  {
    if entries != [] {
      var init, last := entries[..|entries| - 1], entries[|entries| - 1];
      ListedWithout(init, gone, rendition);
      assert Without(init, gone) + [] == Without(init, gone);
      assert (Without(init, gone) + [last])[..|Without(init, gone)|] == Without(init, gone);
    }
  }

  lemma ListedReplaced(entries: seq<Entry>, entry: Entry, rendition: string)
    ensures Listed(Without(entries, entry.rendition) + [entry], rendition)
            == if rendition == entry.rendition then entry.status else Listed(entries, rendition)
  {
    var kept := Without(entries, entry.rendition);
    assert (kept + [entry])[..|kept|] == kept;
    if rendition != entry.rendition {
      ListedWithout(entries, entry.rendition, rendition);
    }
  }

  /** The status column of one rendition row of the owner's. */
  function RowStatus(t: Table, owner: string, video: string, rendition: string): Option<Value> {
    if Held(t, R(video, rendition, RenditionOwner)) == Some(Str(owner)) then Held(t, R(video, rendition, RenditionStatus)) else None
  }

  ghost predicate Agree(entries: seq<Entry>, t: Table, owner: string, video: string) {
    forall r :: RowStatus(t, owner, video, r) == StrOf(Listed(entries, r))
  }

  /** The snapshot's list is the owner's rows, in any order. */
  ghost predicate IsListing(entries: seq<Entry>, rows: map<string, Option<Value>>) {
    forall r :: StrOf(Listed(entries, r)) == if r in rows then rows[r] else None
  }

  ghost predicate OneOwner(t: Table, video: string, owner: string) {
    forall r :: HasRendition(t, video, r) ==> Held(t, R(video, r, RenditionOwner)) == Some(Str(owner))
  }

  function Outcome(e: Event): string {
    if e.Failed? then FAILED else COMPLETED
  }

  /** The projector's half of one event. */
  lemma RowStatusAfter(t: Table, e: Event, owner: string, video: string, r: string)
    requires OneOwner(t, video, owner) && (e.video == video ==> e.owner == owner)
    ensures RowStatus(Projected(t, e), owner, video, r)
            == if e.video == video && TouchesRendition(e) && e.rendition.value == r then Some(Str(Outcome(e)))
               else RowStatus(t, owner, video, r)
  {
    var w := EventWrites(e, OwnedBy(t, e.video, e.owner));
    StatusCellWritten(e, OwnedBy(t, e.video, e.owner), video, r);
    UpsertedCell(t, e, w, R(video, r, RenditionStatus));
    UpsertedCell(t, e, w, R(video, r, RenditionOwner));
    RowOwnerAfter(t, e, owner, video, r);
  }

  lemma StatusCellWritten(e: Event, owned: bool, video: string, r: string)
    ensures var c, w := R(video, r, RenditionStatus), EventWrites(e, owned);
            && (c in w <==> e.video == video && TouchesRendition(e) && e.rendition.value == r)
            && (c in w ==> w[c] == Str(Outcome(e)))
            && R(video, r, RenditionOwner) !in w && R(video, r, RenditionRow) !in w
  {
    RenditionStatusCell(e, video, r);
    var a := if owned then VideoWrites(e) else map[];
    assert forall c :: c in a ==> c.V?;
  }

  lemma RenditionStatusCell(e: Event, video: string, r: string)
    ensures var c, w := R(video, r, RenditionStatus), RenditionWrites(e);
            && (c in w <==> e.video == video && TouchesRendition(e) && e.rendition.value == r)
            && (c in w ==> w[c] == Str(Outcome(e)))
            && R(video, r, RenditionOwner) !in w && R(video, r, RenditionRow) !in w
  {
  }

  lemma RowOwnerAfter(t: Table, e: Event, owner: string, video: string, r: string)
    requires OneOwner(t, video, owner) && (e.video == video ==> e.owner == owner)
    ensures var c := R(video, r, RenditionOwner);
            Held(Upserted(t, e), c) == if e.video == video && TouchesRendition(e) && e.rendition.value == r then Some(Str(owner)) else Held(t, c)
  {
    assert HasRendition(t, video, r) ==> Held(t, R(video, r, RenditionOwner)) == Some(Str(owner));
  }

  lemma OneOwnerStays(t: Table, e: Event, owner: string, video: string)
    requires OneOwner(t, video, owner) && (e.video == video ==> e.owner == owner)
    ensures OneOwner(Projected(t, e), video, owner)
  {
    forall r | HasRendition(Projected(t, e), video, r)
      ensures Held(Projected(t, e), R(video, r, RenditionOwner)) == Some(Str(owner))
    {
      assert HasRendition(t, video, r) ==> Held(t, R(video, r, RenditionOwner)) == Some(Str(owner));
      RowAndOwnerAfter(t, e, EventWrites(e, OwnedBy(t, e.video, e.owner)), owner, video, r);
    }
  }

  lemma RowAndOwnerAfter(t: Table, e: Event, w: Table, owner: string, video: string, r: string)
    requires forall c :: c in w ==> IsState(c)
    requires e.video == video ==> e.owner == owner
    requires HasRendition(t, video, r) ==> Held(t, R(video, r, RenditionOwner)) == Some(Str(owner))
    ensures HasRendition(Upserted(t, e) + w, video, r) ==> Held(Upserted(t, e) + w, R(video, r, RenditionOwner)) == Some(Str(owner))
  {
    UpsertedCell(t, e, w, R(video, r, RenditionRow));
    UpsertedCell(t, e, w, R(video, r, RenditionOwner));
  }

  /** The reducer's half of one event. */
  lemma ListedAfter(h: Hook, e: Event, r: string)
    ensures Listed(EventSeen(h, e).renditions, r)
            == if TouchesRendition(e) && e.rendition.value == r then Some(Outcome(e)) else Listed(h.renditions, r)
  {
    if TouchesRendition(e) {
      var entry := if e.Failed? then Entry(e.rendition.value, Some(FAILED), None, Some(e.reason))
                   else Entry(e.rendition.value, Some(COMPLETED), e.renditionObjectKey, None);
      ListedReplaced(h.renditions, entry, r);
      assert EventSeen(h, e).renditions == Without(h.renditions, e.rendition.value) + [entry];
    }
  }

  lemma EventKeepsAgreement(h: Hook, t: Table, e: Event, owner: string, video: string)
    requires Agree(h.renditions, t, owner, video) && OneOwner(t, video, owner)
    requires e.video == video && e.owner == owner
    ensures Agree(EventSeen(h, e).renditions, Projected(t, e), owner, video)
  {
    forall r
      ensures RowStatus(Projected(t, e), owner, video, r) == StrOf(Listed(EventSeen(h, e).renditions, r))
    {
      assert RowStatus(t, owner, video, r) == StrOf(Listed(h.renditions, r));
      RowStatusAfter(t, e, owner, video, r);
      ListedAfter(h, e, r);
    }
  }

  lemma OthersKeepAgreement(entries: seq<Entry>, t: Table, e: Event, owner: string, video: string)
    requires Agree(entries, t, owner, video) && OneOwner(t, video, owner) && e.video != video
    ensures Agree(entries, Projection(t, e), owner, video)
  {
    if HasVideo(t, e.video) {
      forall r
        ensures RowStatus(Projected(t, e), owner, video, r) == StrOf(Listed(entries, r))
      {
        assert RowStatus(t, owner, video, r) == StrOf(Listed(entries, r));
        RowStatusAfter(t, e, owner, video, r);
      }
    }
  }

  /** The hook given a list of rows as deltas. */
  function Browse(h: Hook, rows: seq<Logged>): Hook {
    if rows == [] then h else Stepped(Browse(h, rows[..|rows| - 1]), EventArrives(rows[|rows| - 1].event))
  }

  function Committed(db: Db, es: seq<Event>): Db {
    Fold(Transaction, db, es)
  }

  /** Every event of the log is committed for the first time, and one owner owns the video. */
  ghost predicate CommittedOnce(db: Db, es: seq<Event>, video: string, owner: string) {
    es == []
    || (var init, last := es[..|es| - 1], es[|es| - 1];
        CommittedOnce(db, init, video, owner) && !Known(Committed(db, init).events, last.id) && (last.video == video ==> last.owner == owner))
  }

  lemma {:induction false} MaxBelowNext(rows: seq<Logged>, nextId: nat, video: string)
    requires Rising(rows, nextId) && nextId > 0
    ensures MaxEventId(rows, video) < nextId
  {
    if rows != [] {
      MaxBelowNext(rows[..|rows| - 1], nextId, video);
    }
  }

  lemma VideoStays(t: Table, e: Event, video: string)
    requires HasVideo(t, video)
    ensures HasVideo(Projected(t, e), video)
  {
    UpsertedCell(t, e, EventWrites(e, OwnedBy(t, e.video, e.owner)), V(video, VideoRow));
  }

  /** What the log keeps true of the rows it was committed to. */
  lemma {:induction false} CommittedKeeps(db: Db, es: seq<Event>, video: string, owner: string)
    requires CommittedOnce(db, es, video, owner) && HasVideo(db.table, video) && OneOwner(db.table, video, owner)
    ensures var d := Committed(db, es);
            d.nextId >= db.nextId && HasVideo(d.table, video) && OneOwner(d.table, video, owner)
            && d.table == FoldTable(db.table, es)
  {
    if es != [] {
      var init, last := es[..|es| - 1], es[|es| - 1];
      var d := Committed(db, init);
      CommittedKeeps(db, init, video, owner);
      assert Committed(db, es) == Transaction(d, last);
      assert FoldTable(db.table, es) == Projection(d.table, last);
      if HasVideo(d.table, last.video) {
        OneOwnerStays(d.table, last, owner, video);
        VideoStays(d.table, last, video);
      }
    }
  }

  /** The stream's next row, or none. */
  lemma NextRow(d: Db, e: Event, video: string, after: int)
    requires !Known(d.events, e.id) && HasVideo(d.table, video) && after < d.nextId
    ensures RowsAfter(Transaction(d, e).events, video, after)
            == RowsAfter(d.events, video, after) + if e.video == video then [Logged(d.nextId, e)] else []
  {
    var rows := RowsAfter(d.events, video, after);
    assert rows + [] == rows;
    if HasVideo(d.table, e.video) {
      OneMore(d.events, Logged(d.nextId, e), video, after);
    }
  }

  lemma Agreement(h: Hook, db: Db, es: seq<Event>, video: string, owner: string)
    requires CommittedOnce(db, es, video, owner) && HasVideo(db.table, video) && OneOwner(db.table, video, owner)
    requires Rising(db.events, db.nextId) && db.nextId > 0 && Agree(h.renditions, db.table, owner, video)
    ensures var rows := RowsAfter(Committed(db, es).events, video, MaxEventId(db.events, video));
            rows == [] || Browse(h, rows[..|rows| - 1]).live
            ==> Agree(Browse(h, rows).renditions, Committed(db, es).table, owner, video)
    decreases |es|
  {
    var after := MaxEventId(db.events, video);
    if es == [] {
      NothingAboveMax(db.events, video);
    } else {
      var init, e := es[..|es| - 1], es[|es| - 1];
      var d := Committed(db, init);
      var rows := RowsAfter(d.events, video, after);
      Agreement(h, db, init, video, owner);
      CommittedKeeps(db, init, video, owner);
      MaxBelowNext(db.events, db.nextId, video);
      NextRow(d, e, video, after);
      OneRowMore(h, d, e, rows, video, owner);
    }
  }

  lemma OneRowMore(h: Hook, d: Db, e: Event, rows: seq<Logged>, video: string, owner: string)
    requires HasVideo(d.table, video) && OneOwner(d.table, video, owner) && (e.video == video ==> e.owner == owner)
    requires rows == [] || Browse(h, rows[..|rows| - 1]).live ==> Agree(Browse(h, rows).renditions, d.table, owner, video)
    ensures var more := rows + if e.video == video then [Logged(d.nextId, e)] else [];
            more == [] || Browse(h, more[..|more| - 1]).live
            ==> Agree(Browse(h, more).renditions, Transaction(d, e).table, owner, video)
  {
    if e.video == video {
      var more := rows + [Logged(d.nextId, e)];
      assert more[..|more| - 1] == rows;
      if Browse(h, rows).live {
        EventKeepsAgreement(Browse(h, rows), d.table, e, owner, video);
      }
    } else {
      assert rows + [] == rows;
      if rows == [] || Browse(h, rows[..|rows| - 1]).live {
        OthersKeepAgreement(Browse(h, rows).renditions, d.table, e, owner, video);
      }
    }
  }

  lemma SnapshotAgrees(db: Db, entries: seq<Entry>, owner: string, video: string)
    requires IsListing(entries, Renditions(db, owner, video))
    ensures Agree(entries, db.table, owner, video)
  {
    forall r
      ensures RowStatus(db.table, owner, video, r) == StrOf(Listed(entries, r))
    {
      assert r in Renditions(db, owner, video) <==> Held(db.table, R(video, r, RenditionOwner)) == Some(Str(owner));
    }
  }

  /** Three folds of one log agree. A page gets the snapshot of one database state; the log is then folded by
      the projector into rows, stored as events, sent as the stream's deltas and reduced by the page: up to
      and including the event that closes it, the page's rendition statuses are the rows'. */
  lemma ThreeFoldsAgree(h: Hook, cached: VideoCache, entries: seq<Entry>, db: Db, es: seq<Event>, video: string, owner: string)
    requires h.live && IsListing(entries, Renditions(db, owner, video))
    requires Rising(db.events, db.nextId) && db.nextId > 0
    requires HasVideo(db.table, video) && OneOwner(db.table, video, owner) && CommittedOnce(db, es, video, owner)
    ensures var start := Stepped(h, SnapshotArrives(cached, entries));
            var rows := RowsAfter(Committed(db, es).events, video, MaxEventId(db.events, video));
            rows == [] || Browse(start, rows[..|rows| - 1]).live
            ==> Agree(Browse(start, rows).renditions, FoldTable(db.table, es), owner, video)
  {
    SnapshotAgrees(db, entries, owner, video);
    CommittedKeeps(db, es, video, owner);
    Agreement(Stepped(h, SnapshotArrives(cached, entries)), db, es, video, owner);
  }

  /** One event from agreement: the page follows the row if and only if the wire name patches it or the state
      is the one shown. */
  lemma VideoStatusFollows(h: Hook, t: Table, e: Event)
    requires h.live && h.video.Some? && OwnedBy(t, e.video, e.owner)
    requires Held(t, V(e.video, Status)) == Some(Str(h.video.value.status))
    ensures var h' := Stepped(h, EventArrives(e));
            h'.video.Some? && (Held(Projected(t, e), V(e.video, Status)) == Some(Str(h'.video.value.status))
                               <==> WireName(e) != "rendition.completed" || e.state == h.video.value.status)
  {
    StatusCellSet(e);
    UpsertedCell(t, e, EventWrites(e, true), V(e.video, Status));
    CachedStatus(h, e);
  }

  lemma StatusCellSet(e: Event)
    ensures V(e.video, Status) in EventWrites(e, true) && EventWrites(e, true)[V(e.video, Status)] == StatusSet(e)
  {
    assert V(e.video, Status) !in RenditionWrites(e);
    assert Status !in STATUS_FIELDS;
  }

  lemma CachedStatus(h: Hook, e: Event)
    requires h.video.Some?
    ensures var video := EventSeen(h, e).video;
            video.Some? && Str(video.value.status) == if WireName(e) == "rendition.completed" then Str(h.video.value.status) else StatusSet(e)
  {
  }

  /** The status the page shows after a list of deltas: the last one whose wire name patches it. */
  function Shown(status: string, rows: seq<Logged>): string {
    if rows == [] then status
    else
      var last := rows[|rows| - 1].event;
      if WireName(last) == "rendition.completed" then Shown(status, rows[..|rows| - 1])
      else if last.Failed? then FAILED else last.state
  }

  ghost predicate OpenUntilLast(h: Hook, rows: seq<Logged>) {
    rows == [] || Browse(h, rows[..|rows| - 1]).live
  }

  lemma OpenBefore(h: Hook, rows: seq<Logged>)
    requires rows != [] && Browse(h, rows).live
    ensures Browse(h, rows[..|rows| - 1]).live
  {
  }

  lemma {:induction false} PageShows(h: Hook, rows: seq<Logged>)
    requires h.video.Some? && OpenUntilLast(h, rows)
    ensures var video := Browse(h, rows).video; video.Some? && video.value.status == Shown(h.video.value.status, rows)
  {
    if rows != [] {
      var init, last := rows[..|rows| - 1], rows[|rows| - 1].event;
      if init != [] {
        OpenBefore(h, init);
      }
      PageShows(h, init);
      CachedStatus(Browse(h, init), last);
    }
  }

  /** The row shows the state of the last event stored for the video. */
  lemma {:induction false} RowShows(db: Db, es: seq<Event>, video: string, owner: string)
    requires CommittedOnce(db, es, video, owner) && OwnedBy(db.table, video, owner) && OneOwner(db.table, video, owner)
    requires Rising(db.events, db.nextId) && db.nextId > 0
    ensures var d := Committed(db, es); var rows := RowsAfter(d.events, video, MaxEventId(db.events, video));
            && OwnedBy(d.table, video, owner)
            && StatusIn(d, video) == if rows == [] then StatusIn(db, video) else Some(StatusSet(rows[|rows| - 1].event))
  {
    var after := MaxEventId(db.events, video);
    if es == [] {
      NothingAboveMax(db.events, video);
    } else {
      var init, e := es[..|es| - 1], es[|es| - 1];
      var d := Committed(db, init);
      RowShows(db, init, video, owner);
      CommittedKeeps(db, init, video, owner);
      MaxBelowNext(db.events, db.nextId, video);
      NextRow(d, e, video, after);
      OwnerStays(d.table, e, video, owner);
      if HasVideo(d.table, e.video) {
        StatusAfter(d.table, e, video);
      }
    }
  }

  lemma OwnerStays(t: Table, e: Event, video: string, owner: string)
    ensures OwnedBy(Projection(t, e), video, owner) == OwnedBy(t, video, owner)
  {
    ProjectionCells(t, t, e);
  }

  /** The video's own status is a different matter. From a snapshot, over any deltas up to the one that closes
      the stream, the page's video status is the row's if and only if the last event was one whose wire name
      patches it or carries the status the page was showing: a rendition.completed delta carries a state the
      projector stores and the page drops. */
  lemma VideoStatusAgrees(h: Hook, db: Db, es: seq<Event>, video: string, owner: string)
    requires CommittedOnce(db, es, video, owner) && OwnedBy(db.table, video, owner) && OneOwner(db.table, video, owner)
    requires Rising(db.events, db.nextId) && db.nextId > 0
    requires h.video.Some? && StatusIn(db, video) == Some(Str(h.video.value.status))
    requires OpenUntilLast(h, RowsAfter(Committed(db, es).events, video, MaxEventId(db.events, video)))
    ensures var rows := RowsAfter(Committed(db, es).events, video, MaxEventId(db.events, video));
            var shown := Browse(h, rows).video;
            && shown.Some?
            && (StatusIn(Committed(db, es), video) == Some(Str(shown.value.status)) <==>
                  || rows == []
                  || WireName(rows[|rows| - 1].event) != "rendition.completed"
                  || rows[|rows| - 1].event.state == Shown(h.video.value.status, rows[..|rows| - 1]))
  {
    var rows := RowsAfter(Committed(db, es).events, video, MaxEventId(db.events, video));
    RowShows(db, es, video, owner);
    PageShows(h, rows);
    if rows != [] {
      LastDecides(h.video.value.status, rows);
    }
  }

  /** The last delta's own status is the one shown, unless the page drops it. */
  lemma LastDecides(status: string, rows: seq<Logged>)
    requires rows != []
    ensures StatusSet(rows[|rows| - 1].event) == Str(Shown(status, rows)) <==>
              WireName(rows[|rows| - 1].event) != "rendition.completed" || rows[|rows| - 1].event.state == Shown(status, rows[..|rows| - 1])
  {
  }

  // -------------------------------------------------------------- each listener, by field

  /** What one delta does to the cached video: every patched field takes the payload's own value. */
  lemma VideoPatched(h: Hook, e: Event)
    requires h.video.Some?
    ensures var before, after := h.video.value, EventSeen(h, e).video;
            after == match WireName(e)
                     case "status" => Some(before.(status := e.state))
                     case "probed" => Some(before.(status := "probed", duration := e.duration, width := e.width, height := e.height, expected := e.expected))
                     case "rendition.completed" => Some(before)
                     case _ => Some(before.(status := "failed", failure := Some(e.reason)))
  {
    WireNames(e);
  }

  /** A page with no cached video stays without one. */
  lemma NothingPatched(h: Hook, e: Event)
    requires h.video.None?
    ensures EventSeen(h, e).video.None?
  {
  }

  /** What one delta does to the cached renditions: the entry of its rendition is replaced, at the end, by one
      with the object and no failure, or the reason and no object. */
  lemma RenditionsPatched(h: Hook, e: Event)
    ensures EventSeen(h, e).renditions
            == match WireName(e)
               case "rendition.completed" =>
                 Without(h.renditions, e.rendition.value) + [Entry(e.rendition.value, Some("completed"), Some(e.renditionObjectKey.value), None)]
               case "rendition.failed" =>
                 Without(h.renditions, e.rendition.value) + [Entry(e.rendition.value, Some("failed"), None, Some(e.reason))]
               case _ => h.renditions
  {
    WireNames(e);
  }

  /** When a delta closes the page for good: either failure, or a plain status that says completed. */
  lemma ClosesOn(h: Hook, e: Event)
    requires h.live && !h.closedForGood
    ensures var h' := Stepped(h, EventArrives(e));
            && (h'.closedForGood <==> WireName(e) in {"rendition.failed", "failed"} || (WireName(e) == "status" && e.state == "completed"))
            && (h'.closedForGood ==> !h'.live && h'.state == Closed) && (!h'.closedForGood ==> h'.live && h'.state == h.state)
  {
    WireNames(e);
  }

  /** A snapshot replaces both caches, and closes the page exactly when its video is completed or failed. */
  lemma SnapshotCloses(h: Hook, video: VideoCache, entries: seq<Entry>)
    requires h.live && !h.closedForGood
    ensures var h' := Stepped(h, SnapshotArrives(video, entries));
            && h'.video == Some(video) && h'.renditions == entries
            && (h'.closedForGood <==> video.status == "completed" || video.status == "failed")
            && (h'.closedForGood <==> !h'.live)
  {
  }

  /** The connection's life, event by event. */
  lemma ConnectionSteps(h: Hook)
    ensures h.live ==> Stepped(h, Opened) == h.(attempt := 0, state := Open)
    ensures h.live && !h.cancelled && !h.closedForGood ==> Stepped(h, ConnectionDrops) == h.(live := false, probing := true)
    ensures h.live && (h.cancelled || h.closedForGood) ==> Stepped(h, ConnectionDrops) == h.(live := false, probing := false)
    ensures h.probing ==> Stepped(h, ProbeReturns(true)) == h.(probing := false, state := Unauthorized)
    ensures h.probing && !h.cancelled ==>
              Stepped(h, ProbeReturns(false)) == h.(probing := false, attempt := h.attempt + 1, state := Reconnecting,
                                                    timer := Some(if h.attempt >= 4 then 15_000 else [1_000, 2_000, 4_000, 8_000][h.attempt]))
    ensures h.probing && h.cancelled ==> Stepped(h, ProbeReturns(false)) == h.(probing := false)
    ensures h.timer.Some? && !h.cancelled ==>
              Stepped(h, TimerFires) == h.(timer := None, live := true, state := if h.attempt == 0 then Connecting else Reconnecting)
    ensures Stepped(h, Unmount) == h.(cancelled := true, timer := None, live := false)
  {
    BackoffSteps(h.attempt);
  }

  lemma BackoffSteps(attempt: nat)
    ensures Backoff(attempt + 1) == if attempt >= 4 then 15_000 else [1_000, 2_000, 4_000, 8_000][attempt]
  {
    BackoffGrows(attempt + 1, attempt + 1);
    assert Doubled(0) == 1 && Doubled(1) == 2 && Doubled(2) == 4 && Doubled(3) == 8;
  }
}
