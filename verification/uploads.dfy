/** The upload path of one video: completing, cancelling and expiring it, by any number of concurrent calls
    (backend/services/api/main.py; the claim-style writes of VideoRepository,
    backend/libs/pipeline/repository.py). A committed statement is one step. */
module Uploads {
  import opened Text
  import opened Folds

  const AWAITING: string := "awaiting_upload"
  const UPLOADED: string := "uploaded"
  const EXPIRED: string := "failed"

  datatype Row = Row(owner: string, status: string, key: string, createdAt: int)

  datatype Message =
    | VideoUploaded(key: string, size: nat)
    | UploadedStatus

  datatype Answer = Accepted | NotFound | Conflict | TooLarge | NoContent

  /** Where a call is. Crashed and answered calls take no more steps. */
  datatype Call =
    | Completing(caller: string)
    | CheckingObject(caller: string, key: string)
    | Claiming(caller: string, key: string, size: nat)
    | Rereading(caller: string)
    | Publishing(key: string, size: nat)
    | Announcing
    | Cancelling(caller: string)
    | Deleting(caller: string, key: string)
    | Discarding(key: string, answer: Answer)
    | Answered(answer: Answer)
    | Crashed

  /** How the row left `awaiting_upload`. */
  datatype Exit = ByComplete(call: nat) | ByCancel | ByExpiry

  datatype World = World(row: Option<Row>, created: bool, stored: Option<nat>, calls: seq<Call>,
                         published: seq<Message>, exits: seq<Exit>)

  datatype Limits = Limits(maxBytes: nat, window: nat)

  datatype Action =
    | Create(owner: string, key: string, now: int)
    | Put(size: nat)
    | Complete(caller: string)
    | Cancel(caller: string)
    | Expire(owner: string, now: int)
    | Advance(call: nat)
    | Crash(call: nat)
    | PipelineWrites(status: string)

  // -------------------------------------------------------------- single statements

  predicate Mine(row: Option<Row>, owner: string) {
    row.Some? && row.value.owner == owner
  }

  predicate Awaiting(row: Option<Row>) {
    row.Some? && row.value.status == AWAITING
  }

  /** UPDATE ... SET status = 'uploaded' WHERE id AND owner_id AND status = 'awaiting_upload' */
  function ClaimUploadComplete(row: Option<Row>, owner: string): (Option<Row>, bool) {
    if Mine(row, owner) && Awaiting(row) then (Some(row.value.(status := UPLOADED)), true) else (row, false)
  }

  /** DELETE ... WHERE id AND owner_id AND status = 'awaiting_upload' */
  function DeleteAwaitingUpload(row: Option<Row>, owner: string): (Option<Row>, bool) {
    if Mine(row, owner) && Awaiting(row) then (None, true) else (row, false)
  }

  /** UPDATE ... SET status = 'failed' WHERE owner_id AND status = 'awaiting_upload' AND created_at < ... */
  function ExpireStale(row: Option<Row>, owner: string, now: int, window: nat): (Option<Row>, bool) {
    if Mine(row, owner) && Awaiting(row) && row.value.createdAt < now - window
    then (Some(row.value.(status := EXPIRED)), true)
    else (row, false)
  }

  // --------------------------------------------------------------------- the machine

  function At(w: World, call: nat, next: Call): World
    requires call < |w.calls|
  {
    w.(calls := w.calls[call := next])
  }

  /** One step of one call of complete_upload or cancel_video. */
  function Advanced(limits: Limits, w: World, i: nat): World
    requires i < |w.calls|
  {
    match w.calls[i]
    case Completing(caller) =>
      At(w, i, if Mine(w.row, caller) then CheckingObject(caller, w.row.value.key) else Answered(NotFound))
    case CheckingObject(caller, key) =>
      At(w, i, if w.stored.None? then Answered(Conflict)
               else if w.stored.value > limits.maxBytes then Discarding(key, TooLarge)
               else Claiming(caller, key, w.stored.value))
    case Claiming(caller, key, size) =>
      var (row, won) := ClaimUploadComplete(w.row, caller);
      if won then At(w, i, Publishing(key, size)).(row := row, exits := w.exits + [ByComplete(i)])
      else At(w, i, Rereading(caller))
    case Rereading(caller) => At(w, i, Answered(if Mine(w.row, caller) then Accepted else NotFound))
    case Publishing(key, size) => At(w, i, Announcing).(published := w.published + [VideoUploaded(key, size)])
    case Announcing => At(w, i, Answered(Accepted)).(published := w.published + [UploadedStatus])
    case Cancelling(caller) =>
      At(w, i, if !Mine(w.row, caller) then Answered(NotFound)
               else if w.row.value.status != AWAITING then Answered(Conflict)
               else Deleting(caller, w.row.value.key))
    case Deleting(caller, key) =>
      var (row, won) := DeleteAwaitingUpload(w.row, caller);
      if won then At(w, i, Discarding(key, NoContent)).(row := row, exits := w.exits + [ByCancel])
      else At(w, i, Answered(Conflict))
    case Discarding(_, answer) => At(w, i, Answered(answer)).(stored := None)
    case Answered(_) => w
    case Crashed => w
  }

  /** The pipeline writes a video's status only once it was told of the video, and never this one. */
  function Acted(limits: Limits, w: World, a: Action): World {
    match a
    case Create(owner, key, now) =>
      if w.created then w else w.(row := Some(Row(owner, AWAITING, key, now)), created := true)
    case Put(size) => w.(stored := Some(size))
    case Complete(caller) => w.(calls := w.calls + [Completing(caller)])
    case Cancel(caller) => w.(calls := w.calls + [Cancelling(caller)])
    case Expire(owner, now) =>
      var (row, won) := ExpireStale(w.row, owner, now, limits.window);
      if won then w.(row := row, exits := w.exits + [ByExpiry]) else w
    case Advance(i) => if i < |w.calls| then Advanced(limits, w, i) else w
    case Crash(i) => if i < |w.calls| then At(w, i, Crashed) else w
    case PipelineWrites(status) =>
      if w.published != [] && status != AWAITING && w.row.Some? then w.(row := Some(w.row.value.(status := status))) else w
  }

  const NOTHING: World := World(None, false, None, [], [], [])

  function RunUploads(limits: Limits, w: World, actions: seq<Action>): World
  {
    if actions == [] then w else Acted(limits, RunUploads(limits, w, actions[..|actions| - 1]), actions[|actions| - 1])
  }

  // ----------------------------------------------------------------- what answers mean

  /** What must be so at the step that answers a call. */
  ghost predicate Justified(w: World, c: Call, answer: Answer) {
    match c
    case Completing(caller) => answer == NotFound && !(w.row.Some? && w.row.value.owner == caller)
    case CheckingObject(_, _) => answer == Conflict && w.stored.None?
    case Rereading(caller) => answer == if w.row.Some? && w.row.value.owner == caller then Accepted else NotFound
    case Announcing => answer == Accepted
    case Cancelling(caller) =>
      if w.row.Some? && w.row.value.owner == caller then answer == Conflict && w.row.value.status != "awaiting_upload" else answer == NotFound
    case Deleting(caller, _) =>
      answer == Conflict && !(w.row.Some? && w.row.value.owner == caller && w.row.value.status == "awaiting_upload")
    case Discarding(_, decided) => answer == decided
    case _ => false
  }

  lemma AnswersMean(limits: Limits, w: World, i: nat)
    requires i < |w.calls| && !w.calls[i].Answered? && Advanced(limits, w, i).calls[i].Answered?
    ensures Justified(w, w.calls[i], Advanced(limits, w, i).calls[i].answer)
  {
  }

  // ------------------------------------------------------------------ what runs keep

  /** The row is awaiting until exactly one exit. */
  predicate ExitsMatch(w: World) {
    && |w.exits| <= 1
    && (!w.created ==> w.row.None? && w.exits == [])
    && (w.created ==> (Awaiting(w.row) <==> w.exits == []))
    && (|w.exits| == 1 && w.exits[0].ByCancel? ==> w.row.None?)
  }

  /** The messages so far, in the one order they can come. */
  predicate MessagesMatch(limits: Limits, w: World) {
    && |w.published| <= 2
    && (|w.published| > 0 ==> w.published[0].VideoUploaded? && w.published[0].size <= limits.maxBytes
                              && |w.exits| == 1 && w.exits[0].ByComplete?)
    && (|w.published| > 1 ==> w.published[1] == UploadedStatus)
  }

  predicate CallMatches(limits: Limits, w: World, i: nat, call: Call) {
    match call
    case Claiming(_, _, size) => size <= limits.maxBytes
    case Publishing(_, size) => w.exits == [ByComplete(i)] && w.published == [] && size <= limits.maxBytes
    case Announcing => w.exits == [ByComplete(i)] && |w.published| == 1
    case _ => true
  }

  ghost predicate Kept(limits: Limits, w: World) {
    && ExitsMatch(w) && MessagesMatch(limits, w)
    && forall i :: 0 <= i < |w.calls| ==> CallMatches(limits, w, i, w.calls[i])
  }

  lemma AdvanceKeeps(limits: Limits, w: World, i: nat)
    requires Kept(limits, w) && i < |w.calls|
    ensures Kept(limits, Advanced(limits, w, i))
  {
    var w' := Advanced(limits, w, i);
    assert CallMatches(limits, w, i, w.calls[i]);
    forall j | 0 <= j < |w'.calls|
      ensures CallMatches(limits, w', j, w'.calls[j])
    {
      assert CallMatches(limits, w, j, w.calls[j]);
    }
  }

  lemma ActKeeps(limits: Limits, w: World, a: Action)
    requires Kept(limits, w)
    ensures Kept(limits, Acted(limits, w, a))
  {
    if a.Advance? && a.call < |w.calls| {
      AdvanceKeeps(limits, w, a.call);
    } else {
      var w' := Acted(limits, w, a);
      forall j | 0 <= j < |w'.calls|
        ensures CallMatches(limits, w', j, w'.calls[j])
      {
        if j < |w.calls| {
          assert CallMatches(limits, w, j, w.calls[j]);
        }
      }
    }
  }

  lemma {:induction false} RunKeepsUploads(limits: Limits, actions: seq<Action>)
    ensures Kept(limits, RunUploads(limits, NOTHING, actions))
  {
    if actions != [] {
      RunKeepsUploads(limits, actions[..|actions| - 1]);
      ActKeeps(limits, RunUploads(limits, NOTHING, actions[..|actions| - 1]), actions[|actions| - 1]);
    }
  }

  function Announced(published: seq<Message>): nat {
    if published == [] then 0
    else Announced(published[..|published| - 1]) + if published[|published| - 1].VideoUploaded? then 1 else 0
  }

  /** Over every interleaving of creation, uploads, completions, cancellations, expiries and crashes: the row
      leaves `awaiting_upload` at most once; `video.uploaded` is published at most once, never for a cancelled
      or expired video, before its status message, and with a size within the quota. */
  lemma UploadedAtMostOnce(limits: Limits, actions: seq<Action>)
    ensures var w := RunUploads(limits, NOTHING, actions);
            && |w.exits| <= 1
            && Announced(w.published) <= 1
            && (ByCancel in w.exits || ByExpiry in w.exits ==> w.published == [])
            && (ByCancel in w.exits ==> w.row.None?)
            && (forall i :: 0 <= i < |w.published| ==>
                  if i == 0 then w.published[i].VideoUploaded? && w.published[i].size <= limits.maxBytes
                  else w.published[i] == UploadedStatus)
  {
    RunKeepsUploads(limits, actions);
    KeptMeans(limits, RunUploads(limits, NOTHING, actions));
  }

  lemma KeptMeans(limits: Limits, w: World)
    requires Kept(limits, w)
    ensures |w.exits| <= 1 && Announced(w.published) <= 1
    ensures (ByCancel in w.exits || ByExpiry in w.exits ==> w.published == []) && (ByCancel in w.exits ==> w.row.None?)
    ensures forall i :: 0 <= i < |w.published| ==>
              if i == 0 then w.published[i].VideoUploaded? && w.published[i].size <= limits.maxBytes
              else w.published[i] == UploadedStatus
  {
    AnnouncedOnce(w.published);
  }

  lemma AnnouncedOnce(published: seq<Message>)
    requires |published| <= 2 && (|published| > 1 ==> published[1] == UploadedStatus)
    ensures Announced(published) <= 1
  {
    if |published| == 2 {
      assert Announced(published[..1]) <= 1;
    }
  }

  /** The row has left `awaiting_upload`, nothing was published, and no call is about to. */
  ghost predicate Silent(limits: Limits, w: World) {
    Kept(limits, w) && w.exits != [] && w.published == [] && forall i :: 0 <= i < |w.calls| ==> !w.calls[i].Publishing?
  }

  lemma SilentStep(limits: Limits, w: World, a: Action)
    requires Silent(limits, w)
    ensures Silent(limits, Acted(limits, w, a))
  {
    ActKeeps(limits, w, a);
    assert w.created;
    assert a.Advance? && a.call < |w.calls| ==> CallMatches(limits, w, a.call, w.calls[a.call]);
  }

  lemma {:induction false} SilentForGood(limits: Limits, w: World, more: seq<Action>)
    requires Silent(limits, w)
    ensures Silent(limits, RunUploads(limits, w, more))
  {
    if more != [] {
      SilentForGood(limits, w, more[..|more| - 1]);
      SilentStep(limits, RunUploads(limits, w, more[..|more| - 1]), more[|more| - 1]);
    }
  }

  /** A crash between the claim and the publish loses the message for good: no later call of any kind
      publishes it. At most once is all there is. */
  lemma CrashAfterClaimLosesIt(limits: Limits, actions: seq<Action>, i: nat, more: seq<Action>)
    requires i < |RunUploads(limits, NOTHING, actions).calls|
    requires RunUploads(limits, NOTHING, actions).calls[i].Publishing?
    ensures RunUploads(limits, Acted(limits, RunUploads(limits, NOTHING, actions), Crash(i)), more).published == []
  {
    var w := RunUploads(limits, NOTHING, actions);
    RunKeepsUploads(limits, actions);
    assert CallMatches(limits, w, i, w.calls[i]);
    ActKeeps(limits, w, Crash(i));
    forall j | 0 <= j < |w.calls| && j != i
      ensures !w.calls[j].Publishing?
    {
      assert CallMatches(limits, w, j, w.calls[j]);
    }
    SilentForGood(limits, Acted(limits, w, Crash(i)), more);
  }

  // -------------------------------------------------------------------- the endpoints

  /** The newest call by itself for `n` steps. */
  function Alone(limits: Limits, w: World, n: nat): (w': World)
    requires w.calls != []
    ensures |w'.calls| == |w.calls| && w'.calls[..|w.calls| - 1] == w.calls[..|w.calls| - 1]
  {
    if n == 0 then w else Advanced(limits, Alone(limits, w, n - 1), |w.calls| - 1)
  }

  function Called(w: World, call: Call): World {
    w.(calls := w.calls + [call])
  }

  function Advances(i: nat, n: nat): seq<Action> {
    if n == 0 then [] else Advances(i, n - 1) + [Advance(i)]
  }

  /** A call left to itself is a run of the machine. */
  lemma {:induction false} AloneIsARun(limits: Limits, w: World, n: nat)
    requires w.calls != []
    ensures RunUploads(limits, w, Advances(|w.calls| - 1, n)) == Alone(limits, w, n)
    decreases n
  {
    if n == 0 {
      return;
    }
    AloneIsARun(limits, w, n - 1);
    AloneGoesOn(limits, w, n);
  }

  lemma AloneGoesOn(limits: Limits, w: World, n: nat)
    requires w.calls != [] && n > 0
    requires RunUploads(limits, w, Advances(|w.calls| - 1, n - 1)) == Alone(limits, w, n - 1)
    ensures RunUploads(limits, w, Advances(|w.calls| - 1, n)) == Alone(limits, w, n)
  {
    RunEndsWith(limits, w, Advances(|w.calls| - 1, n - 1), Advance(|w.calls| - 1));
    AdvanceIsAdvanced(limits, Alone(limits, w, n - 1), |w.calls| - 1);
  }

  lemma RunEndsWith(limits: Limits, w: World, actions: seq<Action>, last: Action)
    ensures RunUploads(limits, w, actions + [last]) == Acted(limits, RunUploads(limits, w, actions), last)
  {
    assert (actions + [last])[..|actions|] == actions;
  }

  lemma AdvanceIsAdvanced(limits: Limits, w: World, i: nat)
    requires i < |w.calls|
    ensures Acted(limits, w, Advance(i)) == Advanced(limits, w, i)
  {
  }

  /** Everything but the calls themselves, and the newest call's answer. */
  predicate Leaves(w: World, answer: Answer, before: seq<Call>, alone: World) {
    w == alone.(calls := before) && |alone.calls| == |before| + 1 && alone.calls[|before|] == Answered(answer)
  }

  lemma {:induction false} AnsweredStays(limits: Limits, w: World, n: nat, k: nat)
    requires w.calls != [] && Alone(limits, w, n).calls[|w.calls| - 1].Answered? && n <= k
    ensures Alone(limits, w, k) == Alone(limits, w, n)
    decreases k
  {
    if n == k {
      return;
    }
    AnsweredStays(limits, w, n, k - 1);
    StaysOnce(limits, w, k);
  }

  lemma StaysOnce(limits: Limits, w: World, k: nat)
    requires w.calls != [] && k > 0 && Alone(limits, w, k - 1).calls[|w.calls| - 1].Answered?
    ensures Alone(limits, w, k) == Alone(limits, w, k - 1)
  {
    AnsweredIsFixed(limits, Alone(limits, w, k - 1), |w.calls| - 1);
  }

  lemma AnsweredIsFixed(limits: Limits, w: World, i: nat)
    requires i < |w.calls| && w.calls[i].Answered?
    ensures Advanced(limits, w, i) == w
  {
  }

  /** The call is at `call` after `n` steps, in this world. */
  predicate Standing(limits: Limits, w: World, n: nat, before: seq<Call>, world: World, call: Call)
    requires w.calls != []
  {
    Alone(limits, w, n) == world.(calls := before + [call])
  }

  lemma Next(limits: Limits, w: World, n: nat, before: seq<Call>, world: World, call: Call, world': World, next: Call)
    requires w.calls != [] && |w.calls| == |before| + 1 && Standing(limits, w, n, before, world, call)
    requires Advanced(limits, world.(calls := before + [call]), |before|) == world'.(calls := before + [next])
    ensures Standing(limits, w, n + 1, before, world', next)
  {
  }

  lemma AtLast(w: World, before: seq<Call>, call: Call, next: Call)
    ensures At(w.(calls := before + [call]), |before|, next) == w.(calls := before + [next])
  {
  }

  /** The claim, won: the row moves on, the call publishes, then announces. */
  function Completed(w: World): World
    requires w.row.Some? && w.stored.Some?
  {
    w.(row := Some(w.row.value.(status := UPLOADED)), exits := w.exits + [ByComplete(|w.calls|)],
       published := w.published + [VideoUploaded(w.row.value.key, w.stored.value), UploadedStatus])
  }

  lemma CompleteLooks(limits: Limits, w: World, caller: string)
    ensures var w0 := Called(w, Completing(caller));
            if !Mine(w.row, caller) then Standing(limits, w0, 1, w.calls, w, Answered(NotFound))
            else if w.stored.None? then Standing(limits, w0, 2, w.calls, w, Answered(Conflict))
            else if w.stored.value > limits.maxBytes then Standing(limits, w0, 3, w.calls, w.(stored := None), Answered(TooLarge))
            else Standing(limits, w0, 2, w.calls, w, Claiming(caller, w.row.value.key, w.stored.value))
  {
    var w0 := Called(w, Completing(caller));
    assert Standing(limits, w0, 0, w.calls, w, Completing(caller));
    var first := if Mine(w.row, caller) then CheckingObject(caller, w.row.value.key) else Answered(NotFound);
    AtLast(w, w.calls, Completing(caller), first);
    Next(limits, w0, 0, w.calls, w, Completing(caller), w, first);
    if Mine(w.row, caller) {
      var second := if w.stored.None? then Answered(Conflict)
                    else if w.stored.value > limits.maxBytes then Discarding(w.row.value.key, TooLarge)
                    else Claiming(caller, w.row.value.key, w.stored.value);
      AtLast(w, w.calls, first, second);
      Next(limits, w0, 1, w.calls, w, first, w, second);
      if second.Discarding? {
        AtLast(w, w.calls, second, Answered(TooLarge));
        Next(limits, w0, 2, w.calls, w, second, w.(stored := None), Answered(TooLarge));
      }
    }
  }

  lemma CompleteClaims(limits: Limits, w: World, caller: string)
    requires Mine(w.row, caller) && w.stored.Some? && w.stored.value <= limits.maxBytes
    ensures var w0 := Called(w, Completing(caller));
            if Awaiting(w.row) then Standing(limits, w0, 5, w.calls, Completed(w), Answered(Accepted))
            else Standing(limits, w0, 4, w.calls, w, Answered(Accepted))
  {
    var w0, b := Called(w, Completing(caller)), w.calls;
    var key, size := w.row.value.key, w.stored.value;
    CompleteLooks(limits, w, caller);
    if Awaiting(w.row) {
      var w1 := w.(row := Some(w.row.value.(status := UPLOADED)), exits := w.exits + [ByComplete(|b|)]);
      var w2 := w1.(published := w.published + [VideoUploaded(key, size)]);
      AtLast(w, b, Claiming(caller, key, size), Publishing(key, size));
      Next(limits, w0, 2, b, w, Claiming(caller, key, size), w1, Publishing(key, size));
      AtLast(w1, b, Publishing(key, size), Announcing);
      Next(limits, w0, 3, b, w1, Publishing(key, size), w2, Announcing);
      AtLast(w2, b, Announcing, Answered(Accepted));
      assert w2.published + [UploadedStatus] == Completed(w).published;
      Next(limits, w0, 4, b, w2, Announcing, Completed(w), Answered(Accepted));
    } else {
      AtLast(w, b, Claiming(caller, key, size), Rereading(caller));
      Next(limits, w0, 2, b, w, Claiming(caller, key, size), w, Rereading(caller));
      AtLast(w, b, Rereading(caller), Answered(Accepted));
      Next(limits, w0, 3, b, w, Rereading(caller), w, Answered(Accepted));
    }
  }

  lemma CancelSteps(limits: Limits, w: World, caller: string)
    ensures var w0 := Called(w, Cancelling(caller));
            if !Mine(w.row, caller) then Standing(limits, w0, 1, w.calls, w, Answered(NotFound))
            else if !Awaiting(w.row) then Standing(limits, w0, 1, w.calls, w, Answered(Conflict))
            else Standing(limits, w0, 3, w.calls, w.(row := None, stored := None, exits := w.exits + [ByCancel]), Answered(NoContent))
  {
    var w0, b := Called(w, Cancelling(caller)), w.calls;
    assert Standing(limits, w0, 0, b, w, Cancelling(caller));
    var first := if !Mine(w.row, caller) then Answered(NotFound)
                 else if !Awaiting(w.row) then Answered(Conflict) else Deleting(caller, w.row.value.key);
    AtLast(w, b, Cancelling(caller), first);
    Next(limits, w0, 0, b, w, Cancelling(caller), w, first);
    if first.Deleting? {
      var w1 := w.(row := None, exits := w.exits + [ByCancel]);
      AtLast(w, b, first, Discarding(first.key, NoContent));
      Next(limits, w0, 1, b, w, first, w1, Discarding(first.key, NoContent));
      AtLast(w1, b, Discarding(first.key, NoContent), Answered(NoContent));
      Next(limits, w0, 2, b, w1, Discarding(first.key, NoContent), w1.(stored := None), Answered(NoContent));
    }
  }

  /** What a completion by itself answers and leaves. */
  function CompleteOutcome(limits: Limits, w: World, caller: string): (World, Answer) {
    if !Mine(w.row, caller) then (w, NotFound)
    else if w.stored.None? then (w, Conflict)
    else if w.stored.value > limits.maxBytes then (w.(stored := None), TooLarge)
    else (if Awaiting(w.row) then Completed(w) else w, Accepted)
  }

  lemma CompletesAlone(limits: Limits, w: World, caller: string)
    ensures var (w', answer) := CompleteOutcome(limits, w, caller);
            Leaves(w', answer, w.calls, Alone(limits, Called(w, Completing(caller)), 5))
  {
    var w0 := Called(w, Completing(caller));
    var (w', answer) := CompleteOutcome(limits, w, caller);
    CompleteLooks(limits, w, caller);
    if answer.Accepted? {
      CompleteClaims(limits, w, caller);
    }
    Settles(limits, w0, if answer.NotFound? then 1 else if answer.Conflict? then 2 else if answer.TooLarge? then 3
                        else if Awaiting(w.row) then 5 else 4, 5, w.calls, w', answer);
  }

  function CancelOutcome(w: World, caller: string): (World, Answer) {
    if !Mine(w.row, caller) then (w, NotFound)
    else if !Awaiting(w.row) then (w, Conflict)
    else (w.(row := None, stored := None, exits := w.exits + [ByCancel]), NoContent)
  }

  lemma CancelsAlone(limits: Limits, w: World, caller: string)
    ensures var (w', answer) := CancelOutcome(w, caller);
            Leaves(w', answer, w.calls, Alone(limits, Called(w, Cancelling(caller)), 3))
  {
    var (w', answer) := CancelOutcome(w, caller);
    CancelSteps(limits, w, caller);
    Settles(limits, Called(w, Cancelling(caller)), if answer.NoContent? then 3 else 1, 3, w.calls, w', answer);
  }

  lemma Settles(limits: Limits, w: World, n: nat, k: nat, before: seq<Call>, world: World, answer: Answer)
    requires |w.calls| == |before| + 1 && Standing(limits, w, n, before, world, Answered(answer)) && n <= k
    ensures Leaves(world.(calls := before), answer, before, Alone(limits, w, k))
  {
    AnsweredStays(limits, w, n, k);
  }

  /** The API over one video. Each endpoint is run from start to end with nobody between its statements, and
      leaves what its call does by itself in the machine. */
  class Api {
    const limits: Limits
    var world: World

    constructor (limits: Limits)
      ensures this.limits == limits && world == NOTHING
    {
      this.limits := limits;
      world := NOTHING;
    }

    method Publish(message: Message)
      modifies this
      ensures world == old(world).(published := old(world).published + [message])
    {
      world := world.(published := world.published + [message]);
    }

    method DeleteObject()
      modifies this
      ensures world == old(world).(stored := None)
    {
      world := world.(stored := None);
    }

    method CompleteUpload(caller: string) returns (answer: Answer)
      modifies this
      ensures Leaves(world, answer, old(world).calls, Alone(limits, Called(old(world), Completing(caller)), 5))
      ensures answer in {Accepted, NotFound, Conflict, TooLarge}
      ensures answer == NotFound <==> !Mine(old(world).row, caller)
      ensures answer == Conflict <==> Mine(old(world).row, caller) && old(world).stored.None?
      ensures answer == TooLarge <==> Mine(old(world).row, caller) && old(world).stored.Some? && old(world).stored.value > limits.maxBytes
      ensures answer == TooLarge ==> world == old(world).(stored := None)
      ensures answer == Accepted && Awaiting(old(world).row) ==>
                && world.row == Some(old(world).row.value.(status := UPLOADED))
                && world.published == old(world).published + [VideoUploaded(old(world).row.value.key, old(world).stored.value), UploadedStatus]
      ensures (answer == Accepted && !Awaiting(old(world).row)) || answer == NotFound || answer == Conflict ==> world == old(world)
    {
      CompletesAlone(limits, world, caller);
      var row := world.row;
      if !Mine(row, caller) {
        return NotFound;
      }
      var head := world.stored;
      if head.None? {
        return Conflict;
      }
      if head.value > limits.maxBytes {
        DeleteObject();
        return TooLarge;
      }
      var (claimedRow, claimed) := ClaimUploadComplete(world.row, caller);
      world := world.(row := claimedRow);
      if claimed {
        world := world.(exits := world.exits + [ByComplete(|world.calls|)]);
        Publish(VideoUploaded(row.value.key, head.value));
        Publish(UploadedStatus);
      }
      return Accepted;
    }

    method CancelVideo(caller: string) returns (answer: Answer)
      modifies this
      ensures Leaves(world, answer, old(world).calls, Alone(limits, Called(old(world), Cancelling(caller)), 3))
      ensures answer in {NoContent, NotFound, Conflict}
      ensures answer == NotFound <==> !Mine(old(world).row, caller)
      ensures answer == NoContent <==> Mine(old(world).row, caller) && Awaiting(old(world).row)
      ensures answer == NoContent ==> world == old(world).(row := None, stored := None, exits := old(world).exits + [ByCancel])
      ensures answer != NoContent ==> world == old(world)
    {
      CancelsAlone(limits, world, caller);
      var row := world.row;
      if !Mine(row, caller) {
        return NotFound;
      }
      if row.value.status != AWAITING {
        return Conflict;
      }
      var (left, deleted) := DeleteAwaitingUpload(world.row, caller);
      world := world.(row := left);
      if !deleted {
        return Conflict;
      }
      world := world.(exits := world.exits + [ByCancel]);
      DeleteObject();
      return NoContent;
    }
  }

  // --------------------------------------------------------- the statements, literally

  /** The three claims, on any row: each touches only an awaiting row of the owner's, each says whether it did,
      and each leaves it in its own state; an upload expires only once its window has passed. */
  lemma ClaimsAre(row: Option<Row>, owner: string, now: int, window: nat)
    ensures var open := row.Some? && row.value.owner == owner && row.value.status == "awaiting_upload";
            var late := open && row.value.createdAt + window < now;
            && ClaimUploadComplete(row, owner) == (if open then (Some(row.value.(status := "uploaded")), true) else (row, false))
            && DeleteAwaitingUpload(row, owner) == (if open then (None, true) else (row, false))
            && ExpireStale(row, owner, now, window) == (if late then (Some(row.value.(status := "failed")), true) else (row, false))
  {
  }

  /** What the calls of a run know of the row. */
  predicate KeyKnown(w: World, call: Call) {
    match call
    case CheckingObject(_, key) => w.created && (w.row.Some? ==> w.row.value.key == key)
    case Claiming(_, key, _) => w.created && (w.row.Some? ==> w.row.value.key == key)
    case Publishing(key, _) => w.row.Some? && w.row.value.key == key
    case _ => true
  }

  ghost predicate KeysKnown(w: World) {
    && (forall i :: 0 <= i < |w.calls| ==> KeyKnown(w, w.calls[i]))
    && (w.published != [] && w.published[0].VideoUploaded? ==> w.row.Some? && w.row.value.key == w.published[0].key)
  }

  lemma AdvanceKnowsKeys(limits: Limits, w: World, i: nat)
    requires Kept(limits, w) && KeysKnown(w) && i < |w.calls|
    ensures KeysKnown(Advanced(limits, w, i))
  {
    var w' := Advanced(limits, w, i);
    assert KeyKnown(w, w.calls[i]) && CallMatches(limits, w, i, w.calls[i]);
    forall k | 0 <= k < |w'.calls|
      ensures KeyKnown(w', w'.calls[k])
    {
      assert KeyKnown(w, w.calls[k]) && CallMatches(limits, w, k, w.calls[k]);
    }
  }

  lemma ActKnowsKeys(limits: Limits, w: World, a: Action)
    requires Kept(limits, w) && KeysKnown(w)
    ensures KeysKnown(Acted(limits, w, a))
  {
    if a.Advance? && a.call < |w.calls| {
      AdvanceKnowsKeys(limits, w, a.call);
    } else {
      var w' := Acted(limits, w, a);
      forall k | 0 <= k < |w'.calls|
        ensures KeyKnown(w', w'.calls[k])
      {
        if k < |w.calls| {
          assert KeyKnown(w, w.calls[k]);
        }
      }
    }
  }

  lemma {:induction false} RunKnowsKeys(limits: Limits, actions: seq<Action>)
    ensures KeysKnown(RunUploads(limits, NOTHING, actions))
  {
    if actions != [] {
      RunKnowsKeys(limits, actions[..|actions| - 1]);
      RunKeepsUploads(limits, actions[..|actions| - 1]);
      ActKnowsKeys(limits, RunUploads(limits, NOTHING, actions[..|actions| - 1]), actions[|actions| - 1]);
    }
  }

  /** Over every run, a published `video.uploaded` names the object key of the row it was published for, and
      the row is there. */
  lemma PublishedNamesItsRow(limits: Limits, actions: seq<Action>)
    ensures var w := RunUploads(limits, NOTHING, actions);
            forall i :: 0 <= i < |w.published| && w.published[i].VideoUploaded? ==> w.row.Some? && w.published[i].key == w.row.value.key
  {
    RunKnowsKeys(limits, actions);
    UploadedAtMostOnce(limits, actions);
  }
}
