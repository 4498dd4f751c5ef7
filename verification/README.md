# The video pipeline, modelled and proved in Dafny

The repository moves an uploaded video through a chain of Kafka workers: probe, transcode, package, with a
retry ladder and a pump beside them, a projector that keeps the read model, an API that accepts uploads and
streams progress, and a page that follows the stream. Every worker is at-least-once, every handler can be
killed between any two calls, and the design leans on claims, copy-then-delete promotions, upserts and
watermarks to stay correct. This project states what those parts promise together and proves it over every
run: every interleaving, redelivery, rebalance, exception and hard kill that the model allows.

`dafny verify dfyconfig.toml` checks everything. One module per file:

| file | contents |
|---|---|
| `consumer.dfy`, `turns.dfy`, `messages.dfy` | the consumer loop as a class, a consumer group as a machine, at-least-once, one pass at a time |
| `retry.dfy`, `lineage.dfy`, `timing.dfy`, `topics.dfy`, `cascade.dfy` | routing, the retry ladder and its pump, topic plans, finiteness |
| `pipeline.dfy`, `safety.dfy`, `joining.dfy`, `stranding.dfy`, `progress.dfy`, `encoding.dfy`, `passes.dfy`, `handlers.dfy` | probe, transcode and package over one bucket, one database and one set of topics |
| `tables.dfy`, `projector.dfy` | the two tables and their three writers, claims, crash replay |
| `sse.dfy`, `browser.dfy` | the event stream and the page that reads it |
| `uploads.dfy`, `storage.dfy` | the upload endpoints, object keys and the store |
| `ladder.dfy`, `hls.dfy`, `thumbnail.dfy` | rungs, bit rates, the multivariant playlist, sprite and cue layout |
| `text.dfy`, `sorting.dfy`, `folds.dfy` | numerals, lines, sorting, folds |

How the pieces are modelled. A machine is a state, a list of actions and a step function in which an
impossible action does nothing; a theorem quantifies over all lists of actions. Code that changes state step
by step is a class whose methods are proved equal to that step function (`Consumer.StageWorker`,
`Handlers.Site`, `Tables.Repositories`, `Projector.ProjectorRepository`, `Timing.RetryPump`,
`Browser.VideoEvents`, `Uploads.Api`, `Storage.ObjectStore`). The database is a map from row-and-column to
value, NULL being absence; the bucket is a map from key to content; ffmpeg is a deterministic function of the
source; clocks, poll results, flush results, faults and the moments at which a read sees the database are
parameters that range over everything.

Results worth knowing before reading on:

- A `video.completed` is never published for a video that cannot be played, whatever goes wrong
  (`Safety.CompletedIsPlayable`).
- Once the join is quiet, the video has been announced if and only if its master was written
  (`Joining.NeverStranded`). Exceptions never strand it. One hard kill between the claim and the write does, if
  and only if the redelivered message meets its own live claim (`Stranding.HardKillStrands`); such a run exists
  for every video (`Progress.SomeKillStrands`).
- `pipeline.failed` is announced for a message only after a dead-letter copy of it was issued, never for one that is
  still being retried (`Consumer.AnnouncedOnlyWhenDead`).
- The handlers discard what `flush` returns. A flush that times out loses the announcement with nobody raising
  and nobody killed (`Progress.SomeShortFlushStrands`); `Joining.NeverStranded` assumes flushes drain and
  `Joining.AtLeastQueued` does not.
- At-least-once needs the producer's flush to drain, because the worker discards what `flush` returns;
  `Consumer.EveryOffsetAccounted` says what holds without it, `Consumer.UndrainedFlushLoses` shows the loss, and
  `Consumer.FlushDecides` says exactly when a routed message survives.
- The comment at backend/libs/pipeline/repository.py:173 gives the end of the retry ladder as the sum of its
  tiers. The pump measures every tier from the event's `occurred_at`, so the ladder ends at the largest tier
  (`Timing.BackNoEarlier` over every run, `Timing.SomeRunIsBack` for the run that meets it); the claim argument
  is proved, and shown exact, for that bound.
- The page's rendition statuses follow the rows exactly (`Browser.ThreeFoldsAgree`); its video status does
  not, and `Browser.VideoStatusAgrees` says precisely when the two part.
- The cues of a sprite sheet tile the video exactly when no cue is shorter than the one-millisecond guard
  (`Thumbnail.CuesTileTheVideo`), which at the default interval means exactly the durations of at least a
  millisecond (`Thumbnail.DefaultCuesTile`).

## Model

| member | source | states |
|---|---|---|
| `Safety.CompletedIsPlayable` | backend/services/worker_package/main.py:94-170 | In every reachable state, a `video.completed` even handed to a producer names the master key and a permutation of the ladder; the master is there, parses to exactly the ladder in rung order, and each URI, resolved against the master key, names a playlist that is there with its segments and its MP4 |
| `Safety.TranscodeCrashSafe` | backend/services/worker_transcode/main.py:88-185 | Whatever step a transcode stops at and however often it is redelivered: a playlist implies the MP4 and every segment it lists, an MP4 implies the renditions row |
| `Safety.RowNeverMissing` | backend/services/worker_package/main.py:77-85 | A packager about to record a rendition always finds its row: the missing-row error is unreachable |
| `Safety.PlaylistKeysTravel` | backend/services/worker_transcode/main.py:88-207 | Over every run: a `rendition.completed` ever handed to a producer carries the rendition's HLS playlist key, and an object is there under that text; so does every playlist cell the packager recorded, and every key it reads back |
| `Safety.ContentWrittenOnce` | backend/services/worker_package/main.py:118-127 | Any two runs put the same content at the same key, so every write of a master carries the same text |
| `Safety.StepOk` | backend/services/worker_transcode/main.py:84-185 | One step of any worker, at any point of its handler, keeps the store, the rows and the messages consistent and takes nothing final away |
| `Safety.RunOk` | backend/services/worker_probe/main.py:63-135 | The invariant behind the results above holds after every list of actions: deliveries, steps, exceptions, kills, other writers, clock ticks |
| `Joining.NeverStranded` | backend/services/worker_package/main.py:59-138 | Over every run in which flushes drain, with any raises, kills and redeliveries: once all facts are persisted, no packager is at work and none of its messages is undelivered, in a retry tier or in the DLQ, `video.completed` is published if and only if the master was written; it was not only if a worker was killed (or its release failed) between its claim and the write, and then the claim is still in the row |
| `Joining.AtLeastQueued` | backend/services/worker_package/main.py:141-170 | The same with flushes free to time out: `video.completed` was at least handed to a producer, if and only if the master was written |
| `Joining.NormalEnd` | backend/services/worker_package/main.py:108-116 | A packager that returns normally after a drained flush found a fact missing, announced the video, or was refused a claim that is still live |
| `Stranding.HardKillStrands` | backend/services/worker_package/main.py:103-116 | The last packager is killed anywhere between winning the claim and giving it back, time passes, and its message is delivered again: that strands the video if and only if the master was not yet written and the dead claim is still live when asked for |
| `Stranding.LastFlushDecides` | backend/services/worker_package/main.py:141-170 | The last packager's last call: the video is stranded if and only if that flush times out and no copy of the announcement is out |
| `Progress.SomeKillStrands` | backend/services/worker_package/main.py:94-138 | For every ladder and any segments, a run exists that goes without fault from the upload to a won claim, with every other message handled, and that one kill then strands |
| `Progress.SomeShortFlushStrands` | backend/services/worker_package/main.py:170-170 | For every video a run exists in which nobody raises and nobody is killed, and one flush that times out strands it |
| `Progress.SomeRunCompletes` | backend/services/worker_probe/main.py:82-137 | For every video a run without fault publishes `video.completed` |
| `Progress.ClaimIsReached` | backend/services/worker_probe/main.py:91-135 | With no fault, probe, every transcode and the packagers go from the upload to a won packaging claim with all facts persisted |
| `Encoding.PromotedAtMostOnce` | backend/services/worker_transcode/main.py:93-146 | Over sequential deliveries of one request, with any crashes, the MP4 is promoted at most once |
| `Passes.WonIsEncoded` | backend/services/worker_transcode/main.py:110-185 | A whole transcode with the claim won: the row is stamped, the MP4, every segment and the playlist that lists them are there, the scratch objects are gone, the MP4 was promoted once |
| `Passes.Mp4IsRemuxed` | backend/services/worker_transcode/main.py:151-185 | With the MP4 there and no playlist: segments, playlist and announcement, with no claim and no encode |
| `Passes.FinishedIsAnnouncedAgain` | backend/services/worker_transcode/main.py:93-104 | With both there: announced again and nothing written |
| `Passes.WonIsPackaged` | backend/services/worker_package/main.py:117-170 | A whole write with the claim won: the master is the text for the sorted ladder, its scratch object is gone, the video is announced, the tables are as they were |
| `Passes.ClaimIsGivenBack` | backend/services/worker_package/main.py:117-138 | An exception clears the claim at each of the five places after it is won and at no other place of the handler |
| `Passes.PlanComesFirst` | backend/services/worker_probe/main.py:91-135 | Over every run no request is handed out before the plan that lists it |
| `Handlers.AloneIsARun` | backend/services/worker_package/main.py:59-138 | Every execution of a handler method, with any call raising and any flush timing out, is a run of the machine in which the other workers stand still |
| `Handlers.Site.Probe` | backend/services/worker_probe/main.py:82-137 | The plan and the requests come from one ladder; a normal return has handed the plan and one request for each rendition to the producer, and published them if the flush drained |
| `Handlers.Site.Transcode` | backend/services/worker_transcode/main.py:84-185 | The whole handler as a run of its worker; a normal return has handed `rendition.completed` to the producer, and published it if the flush drained |
| `Handlers.Site.MakeMp4` | backend/services/worker_transcode/main.py:110-146 | Claim, encode, upload, promote: ends before the segments, or raised with the handler over |
| `Handlers.Site.MakeHls` | backend/services/worker_transcode/main.py:165-182 | Every segment, then the playlist by promotion, in that order |
| `Handlers.Site.Flush` | backend/libs/pipeline/producer.py:80-82 | A flush may raise, or return with the message still queued while the handler goes on as if it were out |
| `Handlers.Site.Package` | backend/services/worker_package/main.py:59-91 | The whole handler as a run of its worker; a normal return means a fact is still missing, or `video.completed` was handed to the producer and is out if the flush drained, or the claim is live and somebody else's |
| `Handlers.Site.TryPackage` | backend/services/worker_package/main.py:94-138 | Re-announce if the master is there; otherwise claim, write, announce; a denied claim returns normally; an announcement is out if the flush drained |
| `Handlers.Site.WriteOrRelease` | backend/services/worker_package/main.py:117-138 | An exception inside the try releases the claim before it goes on; a normal end has handed the announcement to the producer, and published it if the flush drained |
| `Consumer.AtLeastOnce` | backend/libs/pipeline/consumer.py:254-294 | Over every run of a group with rebalances, stale pending messages, failed commits, crashes and kills, an offset below the committed one was handled, or copied with key and value unchanged to a retry tier or the DLQ of its topic, provided every routing flush drains |
| `Consumer.EveryOffsetAccounted` | backend/libs/pipeline/consumer.py:324-364 | Without the proviso: handled, or copied, or the copy waits in a live producer, or died in a killed one |
| `Consumer.FlushDecides` | backend/libs/pipeline/consumer.py:355-364 | A message fails for the first time, is routed, flushed, committed, and the process dies: it survives if and only if the flush delivered everything queued, that is, returned the 0 the worker does not look at |
| `Consumer.FailureIsReached` | backend/libs/pipeline/consumer.py:324-364 | A run reaches that situation, for every configuration |
| `Consumer.UndrainedFlushLoses` | backend/libs/pipeline/consumer.py:363-364 | For every configuration there is a run in which an undrained flush loses a committed message |
| `Consumer.StepKeeps` | backend/libs/pipeline/consumer.py:231-306 | Any single step of any worker keeps the group's guarantee, and the broker's history only grows |
| `Consumer.AnnouncedOnlyWhenDead` | backend/libs/pipeline/consumer.py:366-439 | Over every run of a group, a `pipeline.failed` exists only for a message of which a dead-letter copy was issued before, and from no worker that subscribes it |
| `Consumer.FailedTurnQueues` | backend/libs/pipeline/consumer.py:324-384 | A failure produces the copy and then the announcement, the latter if and only if the destination ends in `.dlq`, the worker does not subscribe `pipeline.failed` and the payload parses; an unroutable one produces nothing |
| `Turns.SuccessfulTurn` | backend/libs/pipeline/consumer.py:279-294 | One pass that succeeds: the first pending message is handled, its next offset is committed if the broker accepts and no other, nothing is produced, the rest of the queue keeps its order |
| `Turns.FailedTurn` | backend/libs/pipeline/consumer.py:279-294 | One pass that fails: the copy, then perhaps the announcement, only then the commit; without a route the worker stops with nothing produced or committed |
| `Turns.PausedWhileHandling` | backend/libs/pipeline/consumer.py:296-306 | While a handler runs nothing is read from what was assigned when it began; a partition assigned since is not paused |
| `Consumer.GroupRunBooks` | backend/libs/pipeline/consumer.py:355-364 | Every copy anywhere is faithful, and every copy ever issued is on the broker, in a live producer or lost with a killed process |
| `Consumer.StageWorker.NextMessage` | backend/libs/pipeline/consumer.py:271-277 | A pending message first, in order; otherwise whatever one poll yields |
| `Consumer.StageWorker.HeartbeatUntil` | backend/libs/pipeline/consumer.py:296-306 | What arrives while the handler works is appended to the pending queue |
| `Consumer.StageWorker.WaitForAssignment` | backend/libs/pipeline/consumer.py:231-248 | Polls until a partition is assigned, keeping what is delivered meanwhile, or times out |
| `Consumer.StageWorker.RouteFailureOf` | backend/libs/pipeline/consumer.py:324-384 | The copy and its flush, and a `pipeline.failed` if and only if the destination ends in `.dlq`, the worker does not subscribe that topic and the payload parses; or the error is raised and nothing is published |
| `Consumer.StageWorker.EmitPipelineFailed` | backend/libs/pipeline/consumer.py:386-439 | Nothing from a worker that consumes `pipeline.failed`, nor for a payload that does not parse; otherwise the event is queued and flushed |
| `Consumer.StageWorker.CommitOffset` | backend/libs/pipeline/consumer.py:441-454 | The committed offset moves past the message if the broker accepts, and the worker goes on either way |
| `Consumer.StageWorker.Process` | backend/libs/pipeline/consumer.py:279-294 | One message from pause to commit equals the machine's steps for it |
| `Consumer.StageWorker.Run` | backend/libs/pipeline/consumer.py:254-269 | The loop equals the machine's passes, and stops for good at an unroutable failure |
| `Retry.SuffixesInvert` | backend/libs/pipeline/retry.py:104-124 | Stripping inverts the DLQ name always and the retry name exactly when the name is no DLQ name; `tier_of` inverts the retry name |
| `Retry.RouteNeverCompounds` | backend/libs/pipeline/retry.py:73-98 | From any spelling of a topic, route goes to a tier or DLQ of the original topic: the DLQ exactly for terminal and poison failures or a spent ladder, otherwise the tier the count names; and nowhere exactly for a transient failure with no ladder |
| `Retry.TierOfSome` | backend/libs/pipeline/retry.py:117-124 | `tier_of` succeeds exactly on the names some tier gives |
| `Messages.CopyCountsOnce` | backend/libs/pipeline/consumer.py:355-362 | However many `retry_count` headers came in, exactly one goes out, one higher than the count read |
| `Messages.CopyTells` | backend/libs/pipeline/consumer.py:340-362 | Each of the five headers of a copy has its literal value after what was there under its name, and every other header is kept |
| `Messages.FailureGoes` | backend/libs/pipeline/consumer.py:340-366 | Where any failed message goes, by error, count and registry: nowhere only for an unreadable count or a transient failure of a topic declared without a ladder, and key and value are kept |
| `Lineage.EveryMessageOnLadder` | backend/services/worker_retry_pump/main.py:74-86 | In every run each message is on its ladder: one count header equal to its failures, tiers visited in order without repeat or gap, at most tiers + 1 failures before the DLQ, names never compounding |
| `Lineage.TierCarriesItsCount` | backend/libs/pipeline/retry.py:92-98 | A message on tier k, also one the pump failed, carries exactly one `retry_count`, equal to k + 1 |
| `Lineage.TransientClimbs` | backend/libs/pipeline/consumer.py:324-364 | A transient failure moves to the next tier and only past the last one to the DLQ, key and value unchanged |
| `Timing.RetryPump.Handle` | backend/services/worker_retry_pump/main.py:74-86 | On a tier's topic, republishes the record untouched to its original topic, not before the event's time plus the tier's delay; any other topic is an error that changes nothing |
| `Timing.LadderEndsAtLargestTier` | backend/services/worker_retry_pump/main.py:76-80 | A message that fails at once on every attempt is back at the later of its first failure and its largest tier after the event, not the sum of the tiers |
| `Timing.BackNoEarlier` | backend/services/worker_retry_pump/main.py:74-86 | Over every run of workers and pump on one clock, a message whose last tier was k is back on its topic no earlier than the event plus that tier's delay |
| `Timing.SomeRunIsBack` | backend/services/worker_retry_pump/main.py:74-86 | Some run has a message that fails on every attempt back at exactly that time |
| `Timing.LastRetryWinsBack` | backend/libs/pipeline/repository.py:168-225 | In any run of the ladder, a message back from its last tier wins the claim its own dead attempt left whenever that was taken earlier than the event plus the last tier less the stale window, nobody else having claimed |
| `Timing.LastRetryBoundExact` | backend/libs/pipeline/repository.py:168-225 | For a message claimed the moment it is back, if and only if |
| `Timing.TenMinuteLadder` | backend/libs/pipeline/repository.py:168-225 | On a ladder that ends in ten minutes, the last retry of a message that failed at once wins the claim if and only if it was taken earlier than five minutes after the event |
| `Cascade.CascadeIsFinite` | backend/libs/pipeline/consumer.py:386-439 | Over every run, with every attempt free to fail and groups sharing a topic re-laddering it, one upload causes a bounded number of messages and deliveries |
| `Cascade.OutputWithinWeight` | backend/libs/pipeline/retry.py:73-98 | Every way of handling one message costs no more than its weight: the measure on stage rank, retries left and place |
| `Cascade.NeverRetried` | backend/libs/pipeline/topics.json:57-71 | Over every run, with the rule or without it, a `video.status` or `pipeline.failed` message is only ever a first attempt and is never on a tier |
| `Cascade.WithoutRuleUnbounded` | backend/libs/pipeline/consumer.py:393-412 | If consumers of `pipeline.failed` announced their own failures, no number would bound them |
| `Topics.Plan` | backend/libs/pipeline/topics.py:84-128 | The loop over the declared topics gives the specified plan |
| `Topics.PlannedTopics` | infra/bootstrap_topics.py:31-78 | The script's loop over the raw list gives the specified plan |
| `Topics.DerivationsAgree` | infra/bootstrap_topics.py:31-78 | The two plans are the same sequence exactly when no topic name is declared twice |
| `Topics.RouteStaysPlanned` | backend/libs/pipeline/retry.py:73-98 | Every destination route gives for a declared topic is planned |
| `Topics.PumpDrainsThePlan` | backend/services/worker_retry_pump/main.py:62-71 | The pump subscribes to exactly the planned retry tiers, in plan order |
| `Tables.WritersIndependent` | backend/libs/pipeline/repository.py:187-290 | However the statements of projector, transcode and packager interleave, the tables end the same, given agreed owners and playlists recorded on rows that exist |
| `Tables.ProjectClaimCommute` | backend/libs/pipeline/repository.py:187-225 | A projector apply and a transcode claim commute, also when either creates the row, and the claim is won or lost alike |
| `Tables.PackagerCommutes` | backend/libs/pipeline/repository.py:266-290 | A packager write commutes with another writer's statement exactly unless it records a playlist on a row that statement is about to create |
| `Tables.RenditionClaimsSpaced` | backend/libs/pipeline/repository.py:187-225 | Consecutive winning stamps are more than the stale window apart, and `attempt` is the number of wins, whatever else is written |
| `Tables.PackagingClaimsSpaced` | backend/libs/pipeline/repository.py:315-342 | Two packaging wins with no release between are more than ten minutes apart |
| `Tables.RenditionClaimEffect` | backend/libs/pipeline/repository.py:187-225 | A claim is won if and only if the row is new, unclaimed or claimed more than 300,000,000 microseconds before now; won, it stamps the time and adds one to `attempt`; a row it creates has its owner |
| `Tables.PackagingClaimEffect` | backend/libs/pipeline/repository.py:315-333 | Won if and only if the video exists and its claim is absent or more than 600,000,000 microseconds old, and then only the stamp changes |
| `Tables.Repositories.Claim` | backend/libs/pipeline/repository.py:187-225 | One upsert: makes the row, or takes a NULL or stale claim and counts the attempt, or changes nothing |
| `Tables.Repositories.StoreExpected` | backend/libs/pipeline/repository.py:266-275 | A plain update of the packager's own column, if the video exists |
| `Tables.Repositories.StorePlaylist` | backend/libs/pipeline/repository.py:277-290 | A plain update, and whether there was a row |
| `Tables.Repositories.ReadyPlaylists` | backend/libs/pipeline/repository.py:292-313 | Something exactly when the expected set is known, non-empty and complete, and then one recorded key for each expected rendition |
| `Tables.Repositories.ClaimPackaging` | backend/libs/pipeline/repository.py:315-333 | Won exactly for a NULL or stale claim on an existing video |
| `Tables.Repositories.Release` | backend/libs/pipeline/repository.py:335-342 | Clears the claim, whoever holds it |
| `Projector.CrashReplayRefines` | backend/libs/pipeline/repository.py:359-462 | Over any rewinds of one partition, the events table is the prefix with each id once, in first-application order with rising row ids, and back at the high-water mark the rows are the plain fold of the prefix |
| `Projector.MoveKeeps` | backend/services/projector/main.py:39-56 | Between, rows and owners are already final and every column is final unless an event still to be replayed writes it |
| `Projector.LastWriterWins` | backend/libs/pipeline/repository.py:368-446 | A column's final value is the one its last writing event gave it |
| `Projector.OnceHasIds` | backend/libs/pipeline/repository.py:448-462 | An id is in the deduplicated log exactly when some event of an existing video carries it |
| `Projector.StatusStored` | backend/libs/pipeline/repository.py:368-419 | After a status event for its owner's video: status, duration, width, height and expected renditions hold the event's own fields where it carries them, and what they held otherwise; the failure reason stays |
| `Projector.StatusKeysStored` | backend/libs/pipeline/repository.py:368-419 | The same for the poster, sprite, VTT and master keys; the packager's columns stay |
| `Projector.CompletionStored` | backend/libs/pipeline/repository.py:390-419 | With a rendition and an object key: status `completed`, the object key, and the playlist key if the event has one; every other rendition row stays |
| `Projector.FailureStored` | backend/libs/pipeline/repository.py:421-446 | After a failure: status `failed` and the event's reason, every other column of the video stays |
| `Projector.RenditionFailureStored` | backend/libs/pipeline/repository.py:421-446 | The same for the rendition the failure names, and for no other |
| `Projector.OthersNotStored` | backend/libs/pipeline/repository.py:368-446 | No column of another video or of another owner's video changes |
| `Projector.ProjectorRepository.StatusValues` | backend/libs/pipeline/repository.py:368-389 | The loop collects the state and exactly the optional fields the event carries |
| `Projector.ProjectorRepository.ApplyStatus` | backend/libs/pipeline/repository.py:368-419 | Owner-scoped update of the video, then the rendition's upsert, equal to the event's projection |
| `Projector.ProjectorRepository.ApplyFailure` | backend/libs/pipeline/repository.py:421-446 | The same for a failure |
| `Projector.ProjectorRepository.AppendEvent` | backend/libs/pipeline/repository.py:448-462 | Appends the event unless its id is there |
| `Projector.ProjectorRepository.Handle` | backend/services/projector/main.py:40-54 | One transaction: everything, or, if the video has no row or another constraint is violated, no change to the tables and a terminal error |
| `Sse.Stream` | backend/services/api/sse.py:77-140 | One connection sends its greeting and then exactly the video's events above the starting watermark that the last pass could read, whatever the passes before; it closes at the first pass that reads no video or the status `failed` or `completed`, and at no other |
| `Sse.Follow` | backend/services/api/sse.py:108-138 | The loop, from any watermark: what it has sent, and that it closes at the first pass that reads no video or the status `failed` or `completed` |
| `Sse.GreetingCarries` | backend/services/api/sse.py:95-106 | A new connection is sent one snapshot: the status, exactly the owner's renditions with theirs, and the highest event id of the video; a resumed one is sent nothing |
| `Sse.DeltasCarryRows` | backend/services/api/sse.py:113-119 | A delta for each of the video's rows above the watermark and nothing else, with the row's id, event and wire name, in rising order |
| `Sse.RowsAfterMembers` | backend/libs/pipeline/repository.py:487-493 | The query gives exactly the video's rows above the watermark, in rising id order |
| `Sse.NothingAboveMax` | backend/libs/pipeline/repository.py:495-499 | Nothing lies above the watermark a snapshot starts from |
| `Sse.ResumeHasNoGap` | backend/services/api/sse.py:105-106 | Cut after any number of deltas and resumed from the last id, two connections deliver what one would have, no gap and no repeat |
| `Sse.ClosesAfterItsEvent` | backend/services/api/sse.py:128-132 | The event that last wrote the status read first has its own row among the rows read second: sent, or at or below the watermark |
| `Sse.StreamClosesAfterItsEvent` | backend/services/api/sse.py:108-132 | Over every run of changes: a connection that closed itself on a status the projector wrote last has sent the very event that wrote it, or started at or above that event's row |
| `Sse.RunsGrow` | backend/libs/pipeline/repository.py:448-462 | Every run of changes commits a video's events in id order, as the stream needs |
| `Sse.StatusHasItsRow` | backend/libs/pipeline/repository.py:359-366 | A status nobody wrote is the initial one; one the projector wrote last is its event's, and that event's own row is stored |
| `Browser.ThreeFoldsAgree` | frontend/src/hooks/useVideoEvents.ts:66-167 | From a snapshot of one database state, the page's rendition statuses equal the projector's rows after every event, up to and including the one that closes the stream |
| `Browser.VideoStatusAgrees` | frontend/src/hooks/useVideoEvents.ts:87-167 | From a snapshot, over any deltas up to the closing one, the page's video status is the row's if and only if the last event was patched by its wire name or carries the status the page was showing |
| `Browser.VideoStatusFollows` | frontend/src/hooks/useVideoEvents.ts:87-134 | After one more event the page's video status agrees with the row if and only if the wire name patches it or the state is the one shown |
| `Browser.ClosesOn` | frontend/src/hooks/useVideoEvents.ts:87-167 | The hook closes for good on a failure and on the status `completed`, and on nothing else |
| `Browser.HookSound` | frontend/src/hooks/useVideoEvents.ts:55-192 | At most one of an open source, a token check and a pending retry; a closed hook shows a final status; an idle one is unmounted, closed for good or unauthorized |
| `Browser.ClosedNeverReconnects` | frontend/src/hooks/useVideoEvents.ts:169-188 | Closed for good, nothing reconnects or changes the page |
| `Browser.BackoffGrows` | frontend/src/hooks/useVideoEvents.ts:191-191 | Waits grow from one second to fifteen, reached exactly at the fifth attempt |
| `Browser.VideoEvents.OnOpen` | frontend/src/hooks/useVideoEvents.ts:61-64 | An open connection resets the attempts |
| `Browser.VideoEvents.OnSnapshot` | frontend/src/hooks/useVideoEvents.ts:66-85 | Replaces both caches and closes for good on a final status |
| `Browser.VideoEvents.OnEvent` | frontend/src/hooks/useVideoEvents.ts:87-167 | The handler the wire name selects patches the caches as the reducer says |
| `Browser.VideoEvents.OnError` | frontend/src/hooks/useVideoEvents.ts:169-173 | Closes the source and checks the token unless cancelled or closed |
| `Browser.VideoEvents.OnProbeReturn` | frontend/src/hooks/useVideoEvents.ts:176-192 | Unauthorized ends it, otherwise one timed retry |
| `Browser.VideoEvents.OnTimer` | frontend/src/hooks/useVideoEvents.ts:55-61 | The retry connects, as the first attempt or a later one |
| `Browser.VideoEvents.OnUnmount` | frontend/src/hooks/useVideoEvents.ts:196-200 | Cancels the timer and the source |
| `Uploads.UploadedAtMostOnce` | backend/services/api/main.py:253-313 | Over every interleaving of completions, cancellations, expiries and crashes, the row leaves `awaiting_upload` at most once and `video.uploaded` is published at most once, within the size limit, never for a cancelled or expired video |
| `Uploads.CrashAfterClaimLosesIt` | backend/services/api/main.py:286-311 | A crash between claim and publish loses the message for good, whatever is called later |
| `Uploads.CompletesAlone` | backend/services/api/main.py:253-313 | A completion nobody interferes with: the answer and the state its steps in the machine arrive at |
| `Uploads.CancelsAlone` | backend/services/api/main.py:329-369 | The same for a cancellation |
| `Uploads.AloneIsARun` | backend/services/api/main.py:253-313 | A call left to itself is one of the interleavings |
| `Uploads.AnswersMean` | backend/services/api/main.py:253-369 | What must be so at the very step that gives each answer: 404 for a row that is not the caller's, 409 without an object or no longer awaiting, accepted only after both messages or for a row still the caller's |
| `Uploads.PublishedNamesItsRow` | backend/services/api/main.py:286-311 | Over every run `video.uploaded` carries the key of the row it is about |
| `Uploads.Api.CompleteUpload` | backend/services/api/main.py:253-313 | Each answer with its exact condition and its effect, and the state its call reaches by itself in the machine |
| `Uploads.Api.CancelVideo` | backend/services/api/main.py:329-369 | Each answer with its exact condition, only an awaiting row deleted, and the state its call reaches by itself in the machine |
| `Storage.KeysNeverCollide` | backend/libs/pipeline/storage.py:22-105 | Two keys with one text belong to one owner and one video and name one object, whatever the owner's name holds |
| `Storage.KeysAreOwned` | backend/libs/pipeline/storage.py:86-105 | Every key is its owner's, and is under `tmp/` exactly when it is scratch |
| `Storage.OnlyTheOwnerOwns` | backend/libs/pipeline/storage.py:86-92 | Nobody else passes the ownership check for a key: exactly the owner where no name holds a slash, and in general only a name that begins the owner's, or is begun by it, at a slash |
| `Storage.ReferencesResolve` | backend/libs/pipeline/storage.py:44-56 | The master's and the playlists' relative references resolve to the keys the workers write |
| `Storage.ObjectStore.Promote` | backend/libs/pipeline/storage.py:211-230 | The final key has the scratch content, the scratch key is gone, nothing else changed; nothing happens without a source |
| `Hls.BuildMasterPlaylist` | backend/libs/pipeline/hls.py:105-126 | The loop prints the specified text |
| `Hls.MasterRoundTrip` | backend/libs/pipeline/hls.py:105-126 | Reading the text back gives the ladder in rung order as EXT-X-STREAM-INF and URI pairs |
| `Hls.MasterLines` | backend/libs/pipeline/hls.py:105-126 | The header, the version and then two lines for each rung in order, with BANDWIDTH at a thousand times its bit rate |
| `Hls.MasterOrderIndependent` | backend/libs/pipeline/hls.py:118-121 | Every order of the same distinct rungs prints the same text |
| `Hls.MasterDetermines` | backend/libs/pipeline/hls.py:105-126 | Different rendition sets never print the same text |
| `Hls.LadderListed` | backend/libs/pipeline/hls.py:105-126 | For a ladder in any order, the text lists exactly the ladder |
| `Hls.LadderBandwidthRises` | backend/libs/pipeline/transcode.py:39-54 | For a ladder the probe chose, BANDWIDTH rises strictly |
| `Hls.BitrateMonotone` | backend/libs/pipeline/transcode.py:39-54 | Bit rates never fall as the rung rises and rise strictly between 240 and 1080 |
| `Hls.BitrateNearest` | backend/libs/pipeline/transcode.py:39-54 | The rounded rate is within a half of the exact interpolation |
| `Hls.BitrateAtTies` | backend/libs/pipeline/transcode.py:39-54 | Half-way between two integers, at every sixth rung from 483 to 717, the even one is taken |
| `Ladder.LadderFitsSource` | backend/libs/pipeline/ladder.py:35-58 | Refused exactly under the minimum; otherwise valid rising labels, never upscaled, every standard rung that fits and no other, the source's own size exactly when none fits |
| `Ladder.LadderNeverUpscales` | backend/libs/pipeline/ladder.py:35-58 | Refused if and only if width or height is under 100, whatever the rotation; no rung exceeds either; a standard rung is listed if and only if it is at most both; the smaller of the two is the sole rung exactly when no standard rung fits |
| `Ladder.LabelIsRendition` | backend/libs/pipeline/transcode.py:34-36 | A label reads back to its rung |
| `Thumbnail.CuesTileTheVideo` | backend/libs/pipeline/thumbnail.py:158-181 | For every duration and interval: between 1 and 100 cues, chained from zero to the end without gap or overlap exactly when no cue is shorter than the guard |
| `Thumbnail.DefaultCuesTile` | backend/libs/pipeline/thumbnail.py:89-110 | At the default interval the cues tile exactly the durations of at least a millisecond |
| `Thumbnail.BuildVtt` | backend/libs/pipeline/thumbnail.py:158-181 | The loop gives each tile its own slot and cell, the last one up to the end |
| `Thumbnail.InnerCue` | backend/libs/pipeline/thumbnail.py:168-175 | For every planned layout the guard leaves a cue that is not the last alone exactly when a slot is at least a millisecond, as it is for every interval of three or more |
| `Thumbnail.SamplesInside` | backend/libs/pipeline/thumbnail.py:89-110 | Every sample's period ends strictly inside the source |
| `Thumbnail.TileCountTight` | backend/libs/pipeline/thumbnail.py:61-69 | As few tiles as keep neighbours within the interval, between one and a hundred |
| `Thumbnail.TilesNeverOverlap` | backend/libs/pipeline/thumbnail.py:176-179 | No two tiles overlap |
| `Thumbnail.TileInSheet` | backend/libs/pipeline/thumbnail.py:72-76 | Every tile lies in the sheet |
| `Thumbnail.NoEmptyRow` | backend/libs/pipeline/thumbnail.py:72-76 | Every row of the sheet has a tile |
| `Thumbnail.PosterInside` | backend/libs/pipeline/thumbnail.py:32-37 | The poster is inside the source, within its first tenth and half a second before its end |
| `Thumbnail.TileIsAt` | backend/libs/pipeline/thumbnail.py:158-181 | Tile i is in column i mod 10 and row i div 10 of cells of 160 by 90, and its cue starts at i intervals |

## Left out

- Kafka, Postgres, S3 and ffmpeg themselves: a log with offsets, tables with atomic statements, a key-to-content map, a deterministic function.
- Partition assignment by the broker and its partitioner: any worker may be assigned or lose any partition at any moment.
- Consumer.StageWorker.Run: does not model the stall watchdog, a comparison of one timer, nor the `max_messages` counter.
- Consumer.StageWorker.EmitPipelineFailed: the payload is opaque; a payload that does not parse is one case, and the text of the event is not modelled.
- Messages.CopyHeaders: header values are text, so the byte truncation of the reason is a character truncation.
- Messages.RetryCount: a header that is not a plain numeral is one error case; Python would also read signs, spaces and underscores.
- Retry.FindRetry: digits are ASCII digits and the end of the name is its end; Python's pattern also accepts other Unicode digits and a final newline.
- Hls.Bitrate: exact rational interpolation rounded half to even; the source interpolates and rounds in doubles.
- Lineage.EveryMessageOnLadder: manual replays of dead letters are not among the actions.
- Cascade.CascadeIsFinite: one delivery per group and message; redeliveries after a crash repeat outputs and are not bounded by anything in the source.
- Tables: row ids, `created_at`, `completed_at`, `updated_at` and the `detail` text are not kept.
- Projector.CrashReplayRefines: an event refused for a constraint other than the video's row is not among the moves; it changes no row, like one whose video is missing.
- Sse.Stream: the snapshot's three reads see three states in order, as in the source; `Browser.ThreeFoldsAgree` takes the special case in which they see one, without which deltas can be missed.
- Sse.Stream: of the snapshot's fields, the status and the renditions with theirs are kept; the other columns are copied.
- Sse.Stream: the wake-up flag and its timeout only decide when the next pass happens, so passes happen at any time.
- Sse.ClosesAfterItsEvent: concerns a status the projector wrote; a video the API expired is closed with no event, as in the source.
- Browser.VideoEvents: the `completed_at` of a cached rendition and the fields of a cached video that no event patches are not kept; a reconnecting page always starts from a new snapshot.
- Browser.ThreeFoldsAgree: compares rendition statuses; object keys and failure reasons differ by design of the reducer, which clears them where the row keeps them.
- Uploads.UploadedAtMostOnce: concerns one row; a transaction that was not committed has no step. At most once is all the endpoint gives, since the publish follows the commit.
- Uploads.Api.CompleteUpload: run on its own the row cannot vanish between claim and re-read, so that 404 appears only in the machine.
- Pipeline.Step: one video; other videos' objects live at other keys (`Storage.KeysNeverCollide`) and other videos' rows are touched by `Elsewhere`.
- Pipeline.Step: `video.status` announcements, sizes, timings, probe failures and the download of the source are left out; any of these calls may still raise.
- Pipeline.Step: an upload, a copy or a commit either happened or did not; a commit whose acknowledgement was lost is the step followed by an exception at the next one, or, for the packaging claim, which is taken outside the `try`, the step followed by a kill.
- Pipeline.Step: a `rendition.completed` without a playlist key, which only an older producer could have sent, is not among the messages.
- Encoding.PromotedAtMostOnce: deliveries of one request do not overlap; two that do are separated by the claim, whose spacing is `Tables.RenditionClaimsSpaced`.
- Safety.RowNeverMissing: takes the renditions row as the claim creates it; nothing in the repository deletes one.
- Joining.NeverStranded: assumes that no flush times out; the queue of a killed producer is not told apart from that of a live one, so `held` without `published` covers both.
- Handlers.Site: a handler is one process from start to end; the clock stands still while it runs, and moves between steps only in the machine.
- Thumbnail.BuildVtt: cues on exact reals; the timestamp text, whose seconds can round up to 60.000, and the `xywh` fragment's text are not modelled.
- The thumbnail worker's storage steps: the same shape as transcode without a claim, they would only add easy members.
- Webhooks, authentication, the media proxy, quota counting, health, metrics, tracing, settings, migrations and scripts under `infra` other than the topic bootstrap.
- JSON encoding and validation of events: events are values; what fails to parse is a failure class.
