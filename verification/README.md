# Vaultflix: a model of streaming, caching, jobs and sessions

Vaultflix streams personal videos. This project models the parts of it whose behaviour is decided by
arithmetic over sequences or by the interleaving of concurrent calls, and proves what they keep:

- **On-demand HLS.** Keyframes are grouped into segments (`KeyframeProbe`), each segment is cut on its
  own and its parts are picked from the muxer's list (`SegmentParts`, `DamagedLists`), and the segments
  together must give back the whole content once (`ContentCover`). The table is printed as a playlist,
  gets a token on every URI, is read back by a player, and the names in it are asked for again
  (`SegmentNames`, `Playlist`, `TokenQuery`, `HlsService`).
- **The segment cache.** Concurrent callers share one generation per segment while least recently used
  videos are evicted and idle ones swept (`CacheState`, `CacheProtocol`, `CacheUse`; `SegmentCache` is the
  cache as a mutable object; `MapSums` adds up sizes).
- **Jobs and their observers.** A lane runs one job at a time with cancellation between items (`Jobs`,
  `JobLane`), a hub delivers its reports to WebSocket clients with bounded queues (`Hub`, `HubLoop`), and
  a page turns what it receives into a view (`JobView`, `JobEnds`, `JobWatching`); `JobFeed` is all of it, from
  the lane over the hub's channel to the page.
- **Retry, dedup and session protocols.** Keyframe probes with a failure cooldown (`KeyframeService`),
  recovery of a stream with bounded retries (`StreamSource`), watch-time reporting (`PlaybackSession`)
  and loading a page's data so that only the latest fetch lands (`RemoteResource`).

Concurrent code is a transition system: a step is one critical section, one file operation or one
callback; what the file system, ffmpeg, the clock, the network and callers do is chosen freely, and a
theorem speaks of every state of every run. Code that changes fields in place is also a class, each
method of which is proved to do what the matching function of the transition system says. Loops are
methods with loops, proved against a specification function.

## Conventions and assumptions

- Seconds are `real`. Times that only order events (last access, cooldown, throttle) are `int`.
- Video ids are UUIDs, so they hold no `/` and `sanitizeKey` leaves them alone (`CacheState.VideoId`).
- Removing a directory succeeds. Byte sizes are unbounded integers.
- Requests of a page may fail: `arrived` in `PlaybackSession` is whichever reports reach the server.
- A page's kind of job reads its own kind's reports and nothing else (`JobFeed.Understands`).
- ffmpeg and ffprobe are producers of part lists and keyframe lists; `ContentCover.Delivers` is the
  contract of a part list.
- New ids (jobs, sessions, channels, timers) are fresh. A hub client registers once.
- The token is a sequence of bytes; lines and names are strings.

## Where the code does less than one would expect

- `GroupSegments` tiles the file only if its cuts but the last lie before the end
  (`TilesIffOneCutPastTotal`, with the input in `KeyframesPastTotalBreakTiling`).
- Segments that are cut apart give back the content exactly if no keyframe lies just before a cut
  (`ContentIsWhole`, and `JitteredContentIsWhole` for lists with jitter, with the input in
  `CloseKeyframesAreServedTwice`).
- The comment above `parseSegmentList` says a part missing in the middle is always noticed. It is exactly
  if leaving it out makes a hole longer than the two seconds of `continuityTol`
  (`LostPartsAreNoticedIffLasting`, with the input in `ShortPartGoesMissing`).
- A table of more than 100000 segments lists names that are refused (`LongTablesListUnservedNames`).
- A reload timer of the Stream Source survives `dispose` exactly if a retried error came while another
  reload was pending (`ReloadsAreCancelledIffOrderly`, with the run in `TwoErrorsLeakAReload`). It takes two
  fatal 503 errors of one hls.js instance within the three seconds of the delay: two loads in flight, say of
  two fragments, that both use up hls.js's own retries. A manifest that is polled alone, one load at a time,
  does not do it.
- The comment in `jobProgress.ts` says a late answer cannot make the counts drift. A page's count goes back
  exactly if a report carries less than was shown (`NeverBackIffAscending`, `LateReportMovesBack`).
- The comment in `useJob.ts` says a job that ended is not shown as one that runs and never updates. It is
  exactly if another job's end was seen since (`LateAnswersShowTheEnd`, `ForgottenEndShowsRunning`).
- The comment in `useJob.ts` says each job's end is reported once. It is if and only if no job is brought in
  again after another one (`EndsAreReportedOnceIffNoneReturns`, `AnEndIsReportedTwice`).

## Model

| member | source | states |
|---|---|---|
| KeyframeProbe.GroupSegments | internal/streaming/keyframe_probe.go:71-90 | the loop, the tail merge in place included, makes the table that the greedy specification names |
| KeyframeProbe.TilesIffOneCutPastTotal | internal/streaming/keyframe_probe.go:71-90 | for keyframes in any order, the table starts at 0, is contiguous with positive durations and ends at total, if and only if at most the last cut lies at or past total |
| KeyframeProbe.KeyframesPastTotalBreakTiling | internal/streaming/keyframe_probe.go:71-90 | an input whose table does not tile: three keyframes past the end |
| KeyframeProbe.GroupedIsCuttable | internal/streaming/keyframe_probe.go:67-90 | with keyframes up to total, in any order: a tiling, every inner boundary a keyframe, every segment but the last at least target long, and the last at least a second when there are several |
| KeyframeProbe.CutsStayAhead | internal/streaming/keyframe_probe.go:77-82 | no other chain of keyframes in steps of at least target makes more cuts, and none of its cuts comes before the loop's of the same rank |
| KeyframeProbe.GroupedIsFinest | internal/streaming/keyframe_probe.go:71-90 | no table that could be cut from the same keyframes has more segments, and none starts a segment earlier |
| KeyframeProbe.SegmentsAreShort | internal/streaming/keyframe_probe.go:77-82 | every segment but the last is shorter than target plus the widest keyframe gap, 0 counting as a keyframe |
| SegmentParts.SelectParts | internal/streaming/segment_generator.go:155-177 | the loop answers as specified: the in-window rows in order, or which of the three checks failed first and where |
| SegmentParts.SelectionIsDecided | internal/streaming/segment_generator.go:155-177 | for any list the answer is unique, and it is a success if and only if some row is in the window, the first starts on time and no two neighbours are apart |
| SegmentParts.WindowConcat | internal/streaming/segment_generator.go:158-161 | the window of two lists joined is their windows joined |
| DamagedLists.SkippedRowsAreMissing | internal/streaming/segment_generator.go:128-143 | skipping rows that cannot be read yields the intact list with rows missing, in order |
| DamagedLists.LostPartsAreNoticedIffLasting | internal/streaming/segment_generator.go:124-143 | every accepted list with rows missing holds a prefix of the segment's parts, if and only if leaving out any part makes a hole beyond the tolerances |
| DamagedLists.LostTailIsAccepted | internal/streaming/segment_generator.go:124-127 | parts missing at the end are never noticed |
| DamagedLists.ShortPartGoesMissing | internal/streaming/segment_generator.go:155-177 | an input: of three parts of a second each, the middle one is lost and the selection succeeds |
| ContentCover.ExactTimesSelect | internal/streaming/segment_generator.go:155-177 | one segment of a list with exact times selects exactly the GOPs from 0.1 s before its start to 2 ms before its end |
| ContentCover.JitteredTimesSelect | internal/streaming/segment_generator.go:145-177 | with times off by up to 2 ms, it selects exactly the GOPs that start in it, if none starts just before either end |
| ContentCover.ContentIsWhole | internal/streaming/segment_generator.go:155-177 | with exact times, segments cut apart give back every GOP exactly once in order, if and only if no keyframe lies in the tolerance before a cut or before the end |
| ContentCover.JitteredContentIsWhole | internal/streaming/segment_generator.go:145-177 | for any cuttable table and any jitter tol up to 2 ms: all lists the muxer may write give back every GOP exactly once in order, if and only if no keyframe lies in the tolerance, widened by tol, before a cut or before the end |
| ContentCover.SpacedContentIsWhole | internal/streaming/segment_generator.go:16-41 | for the table GroupSegments makes: keyframes more than the start drift apart, the last one clear of the end, give back every GOP exactly once in order, whatever the jitter |
| ContentCover.CloseKeyframesAreServedTwice | internal/streaming/segment_generator.go:155-177 | an input, with lists the muxer may write for it, of which a GOP is served in two segments whatever the lists |
| SegmentNames.NameReadsBack | internal/streaming/manifest.go:17-32 | a segment's name is parsed back to its index if and only if the index is below 100000 |
| SegmentNames.OnlyItsNameIsRead | internal/streaming/manifest.go:22-32 | a name that parses to an index is the name printed for it |
| SegmentNames.NamesDiffer | internal/streaming/manifest.go:17-19 | different segments have different names |
| Playlist.BuildVODManifest | internal/streaming/manifest.go:36-52 | the text written is the lines of the specified manifest |
| Playlist.ManifestIsFramed | internal/streaming/manifest.go:36-52 | the manifest line by line: header, target duration, the two lines of each segment, and the end |
| Playlist.LongestDuration | internal/streaming/manifest.go:37-42 | the maximum loop finds the longest duration |
| Playlist.TargetBoundsEveryEntry | internal/streaming/manifest.go:36-52 | each EXTINF as printed, and rounded to a whole second, is at most TARGETDURATION |
| Playlist.SecondsReadBack | internal/streaming/manifest.go:48-50 | a duration printed with six decimals reads back as the nearest microsecond |
| Playlist.NearestMicro | internal/streaming/manifest.go:48-50 | six decimals are within half a microsecond of the duration |
| Playlist.RewritePlaylistTokens | internal/handler/hls_handler.go:41-62 | the scanning loop puts the escaped token on exactly the URI lines, and drops what follows a line the scanner cannot hold |
| Playlist.RewritingGoesByLines | internal/handler/hls_handler.go:47-60 | any text is rewritten line by line, a carriage return before the newline dropped |
| Playlist.LongLinesEndTheRewriting | internal/handler/hls_handler.go:41-62 | nothing is left from the first line on that the scanner cannot hold; without a token all is |
| Playlist.TokenisedManifest | internal/handler/hls_handler.go:41-62 | of a manifest, every tag line is untouched and every URI gets the token behind a question mark |
| Playlist.PlaylistReadsBack | internal/streaming/manifest.go:34-52 | a player that reads the tokenised manifest gets the number, order, six-decimal durations, names and target duration of the table |
| TokenQuery.TokenReadsBack | internal/handler/hls_handler.go:45 | unescaping the escaped token gives back every sequence of bytes |
| TokenQuery.PlainTokenStays | internal/handler/hls_handler.go:45 | a token of letters, digits, dashes, underscores, dots and tildes goes out as it is |
| TokenQuery.UriGetsTheToken | internal/handler/hls_handler.go:49-57 | a URI of any playlist keeps its path and its parameters, and a server reads the token as one parameter more, whatever bytes it holds |
| TokenQuery.ListedUrisCarryTheToken | internal/handler/hls_handler.go:41-62 | the query of the i-th URI a player reads holds exactly one parameter, the token the playlist was asked for with |
| HlsService.ListedSegmentsAreServed | internal/service/hls_service.go:55-86 | asking for the i-th URI of the served playlist, without its query, gets the i-th segment of the table |
| HlsService.ServedNames | internal/service/hls_service.go:69-107 | a name gets a segment if and only if the Video plays by remux, is indexed, and the name is that of one of its segments below the limit |
| HlsService.RefusalsAreTold | internal/service/hls_service.go:55-107 | which refusal comes first, for any name and any failure of the Video or its index |
| HlsService.LongTablesListUnservedNames | internal/service/hls_service.go:69-86 | the name of segment 100000 is refused |
| CacheState.KeyIsExact | internal/streaming/segment_cache.go:172-180 | the prefix test finds exactly the keys of its video |
| CacheState.KeysDiffer | internal/streaming/segment_cache.go:67-70 | a key names one segment of one video |
| CacheState.UnderOne | internal/streaming/segment_cache.go:67-70 | no file lies under two videos |
| CacheState.EvictionSettles | internal/streaming/segment_cache.go:143-168 | after eviction the total fits, or only the current video and videos with a segment in flight remain |
| CacheState.EvictedWereOldest | internal/streaming/segment_cache.go:143-168 | only eligible videos are evicted, each last used no later than any eligible survivor |
| CacheState.EvictionIsNeeded | internal/streaming/segment_cache.go:143-168 | with the last victim put back the total would exceed the cap |
| CacheState.RemovedAreGone | internal/streaming/segment_cache.go:143-168 | a removed video leaves no entry, directory or file, and the others keep theirs |
| CacheProtocol.StepKeepsInv | internal/streaming/segment_cache.go:66-138 | every critical section and file operation keeps the invariant of channels, files and sizes |
| CacheProtocol.OneGenerationAtATime | internal/streaming/segment_cache.go:72-103 | in every run, at most one generation of a segment runs at a time |
| CacheProtocol.ChannelsCloseOnce | internal/streaming/segment_cache.go:81-102 | each channel is closed at most once, by the call that inserted it, which finds its own channel under its key; a channel not closed has a live leader |
| CacheProtocol.WaitersAreServed | internal/streaming/segment_cache.go:87-93 | a waiter's channel is closed, or a live call is generating the segment it waits for |
| CacheProtocol.AskDecides | internal/streaming/segment_cache.go:72-88 | a call is served exactly if its own segment's file is there; otherwise it waits for the channel under its key, and leads exactly if there is none |
| CacheProtocol.CallsReturnFiles | internal/streaming/segment_cache.go:72-104 | in every run a call returns a file only if that file is there as it returns, and fails only if it gave up waiting or could not generate |
| CacheProtocol.WaitersAskAgain | internal/streaming/segment_cache.go:87-93 | in every run a waiter asks again only once its channel is closed, and never returns a file from waiting |
| CacheProtocol.LeadersProceed | internal/streaming/segment_cache.go:96-138 | in every run a leader makes the directory, writes, renames, books and closes in this order, and leaves it only by failing |
| CacheProtocol.LeadersCanGoOn | internal/streaming/segment_cache.go:96-138 | in every run a leader is never stuck: what each of its steps may come to, an eviction that ends included, up to closing its own channel |
| CacheProtocol.CallsCanGoOn | internal/streaming/segment_cache.go:66-94 | a call comes asking for its segment; a waiter may ask again once its channel is closed, and give up at any time |
| CacheProtocol.BookingSettles | internal/streaming/segment_cache.go:126-138 | booking adds the segment's size to its video, and leaves the cache within its cap or with nothing left to evict |
| CacheProtocol.BytesAreAccounted | internal/streaming/segment_cache.go:119-137 | for each video the bytes of finalised files on disk are its booked size plus the files renamed but not yet booked |
| CacheProtocol.WorkInProgressSurvives | internal/streaming/segment_cache.go:96-138 | a generating call always finds its directory, and a successful one still finds its file when it clears its entry, whatever was evicted or swept |
| CacheProtocol.DirectoriesInUseStay | internal/streaming/segment_cache.go:150-152 | no step removes the directory of a video with a segment in flight |
| CacheUse.AccessIsLastUse | internal/streaming/segment_cache.go:73-76 | in every run, the last access of a cached video is the time of the last call that asked for or booked one of its segments |
| CacheUse.VictimsWereLeastRecentlyUsed | internal/streaming/segment_cache.go:147-157 | in every run, an evicted video was last used no later than any that could have been evicted and was not |
| CacheUse.SweptWereIdle | internal/streaming/segment_cache.go:191-207 | in every run a sweep removes exactly the videos not used for longer than the idle timeout and with nothing in flight |
| SegmentCache.Store.LookupLocked | internal/streaming/segment_cache.go:73-88 | touches the video and answers hit, join or lead as specified |
| SegmentCache.Store.BookLocked | internal/streaming/segment_cache.go:127-136 | adds the file's size, then evicts as specified |
| SegmentCache.Store.FinishLocked | internal/streaming/segment_cache.go:98-101 | closes the channel under the key and removes it |
| SegmentCache.Store.EvictLocked | internal/streaming/segment_cache.go:143-168 | the loop ends, having removed an admissible sequence of victims and nothing else |
| SegmentCache.Store.OldestEligible | internal/streaming/segment_cache.go:148-160 | the scan finds an eligible video last used no later than any other, or there is none |
| SegmentCache.Store.HasInflightLocked | internal/streaming/segment_cache.go:172-180 | whether some key in flight lies under the video |
| SegmentCache.Store.TotalLocked | internal/streaming/segment_cache.go:182-188 | the sum of the sizes of all videos |
| SegmentCache.Store.Sweep | internal/streaming/segment_cache.go:191-207 | removes exactly the idle videos without a segment in flight |
| Jobs.CountsAddUp | internal/service/job_runner.go:203-221 | Succeeded, Skipped and Failed add up to Processed, and Errors lists exactly the failed items in order |
| Jobs.TalliesCount | internal/service/job_runner.go:210-220 | the counters are the numbers of items that succeeded, were skipped and failed |
| Jobs.TraceReads | internal/service/job_runner.go:191-221 | two reports of each processed item: which one starts and as the how manieth, and how it ended with the counts up to it |
| Jobs.FinalJobTells | internal/service/job_runner.go:175-239 | the last report is the finished job, which accounts for what it processed and says how it ended, or why its listing failed |
| Jobs.JobRunner.Start | internal/service/job_runner.go:124-135 | refused with the running kind while busy; otherwise a new running job takes the lane |
| Jobs.JobRunner.Cancel | internal/service/job_runner.go:148-163 | not found for any job but the latest; a finished job is left alone; an open channel is closed once |
| Jobs.JobRunner.Execute | internal/service/job_runner.go:175-200 | a listing that fails or the items until the end or the cancel: the whole trace of the record it leaves is reported |
| Jobs.JobRunner.RunItems | internal/service/job_runner.go:191-199 | the loop runs a prefix of the items, up to the first at which the cancel is seen |
| Jobs.JobRunner.RunItem | internal/service/job_runner.go:203-221 | one item's two reports, and the job counted on by its outcome |
| Jobs.JobRunner.Finish | internal/service/job_runner.go:226-239 | the end is reported, and then recorded together with freeing the lane |
| JobLane.StepKeepsLane | internal/service/job_runner.go:124-239 | every step of starters, cancellers and the worker keeps the lane's invariant |
| JobLane.StartDecides | internal/service/job_runner.go:124-135 | in every run a start takes a free lane for a new running job, and changes nothing on a busy one |
| JobLane.ItemsGoOn | internal/service/job_runner.go:175-221 | in every run a job lists its items, passes each check or ends, and runs the item it started |
| JobLane.ReportsGoOn | internal/service/job_runner.go:175-221 | in every run a job reports a failed listing, and each item's start and end with what the items so far came to |
| JobLane.EndsGoOn | internal/service/job_runner.go:223-239 | in every run a job that ended reports its end and then frees the lane, leaving its final record |
| JobLane.ReportsAreWholeTraces | internal/service/job_runner.go:175-239 | in every run the reports are whole traces of one job after another, then the latest job's so far |
| JobLane.BusyIsRunning | internal/service/job_runner.go:223-239 | the lane is taken exactly while the latest job shows as running |
| JobLane.LatestJobIsAccounted | internal/service/job_runner.go:203-239 | in every locked state the latest job's counts add up to the items it processed and its errors are those of exactly the failed ones, in order; its final status means what it says |
| JobLane.FinishedJobReportsItsTrace | internal/service/job_runner.go:175-239 | in every run the reports of a finished job, whatever others reported before and after, are its whole trace |
| JobLane.CancelsStayInKind | internal/service/import_service.go:114-133 | a service's check and cancel never closes the channel of another kind's job, even if a job starts in between; no channel is closed twice |
| JobLane.AtMostOneItemAfterCancel | internal/service/job_runner.go:191-199 | at most one item starts after the cancel |
| JobLane.CancelCloses | internal/service/job_runner.go:148-163 | a cancel of the latest job closes its channel while it runs; any other changes nothing |
| JobLane.StartedAreReported | internal/service/job_runner.go:203-206 | in every run the items a job counts as started are those it has reported the start of |
| JobLane.LookDecides | internal/service/job_runner.go:191-199 | at an item, a worker whose channel is closed ends as cancelled, and goes on otherwise; after the last it ends |
| JobLane.EndingDecides | internal/service/job_runner.go:226-239 | in every run a job ends as failed, cancelled or completed exactly if its listing failed, items are left, or none is |
| JobLane.CancelledJobsStop | internal/service/job_runner.go:148-199 | in every run a job cancelled with more than one item left to start ends as cancelled, after at most one more |
| Hub.EventKeepsInv | internal/websocket/hub.go:52-78 | every event of the loop keeps the registry sound: no empty list, distinct clients of their user, open channels exactly of the live ones, no queue overflows |
| Hub.DeliveredWithoutGaps | internal/websocket/hub.go:109-138 | in every run, what a client's writer took followed by what waits is, in order and without a gap, every message for it since it registered, up to the one that did not fit or its leaving |
| Hub.ChannelsCloseOnce | internal/websocket/hub.go:140-158 | a channel is closed once, when its client leaves the registry, and is not written after |
| Hub.MessagesReach | internal/websocket/hub.go:109-138 | a message reaches each connection it is for that has room, puts out those that have not, and nobody else notices |
| Hub.LeavingClosesTheChannel | internal/websocket/hub.go:140-158 | a client that leaves is out and its channel closed; the others stay as they were |
| Hub.ClientsComeAndTake | internal/websocket/hub.go:60-69 | a client that registers is in with an empty queue, after its user's other ones; a writer takes the message that waits longest |
| HubLoop.Registry.RegisterClient | internal/websocket/hub.go:59-64 | appends the client to its user's list |
| HubLoop.Registry.RemoveClient | internal/websocket/hub.go:142-158 | removes exactly that client, dropping an empty list, and closes its channel; no effect if it is gone |
| HubLoop.Registry.DeliverToClients | internal/websocket/hub.go:123-138 | every connection with room gets the message, the others are removed after the walk |
| HubLoop.Registry.Offer | internal/websocket/hub.go:124-134 | the walk fills the queues with room and lists the full ones, in order |
| HubLoop.Registry.Drop | internal/websocket/hub.go:135-137 | removing the listed clients one by one purges them all |
| HubLoop.Registry.DeliverToUser | internal/websocket/hub.go:111-117 | a targeted message reaches that user's connections only |
| HubLoop.Registry.BroadcastToAll | internal/websocket/hub.go:72-76 | one user after another in any order, with removals in between, amounts to one delivery to everyone |
| JobView.FinishedViewsStay | web/src/lib/jobProgress.ts:42-71 | a view that left running stays an end of that job, if and only if there is no reset, no other job's snapshot and no end that is still running |
| JobView.EventsShow | web/src/lib/jobProgress.ts:42-71 | what each snapshot, report, end and reset shows, by what is shown before |
| JobView.LiveViewIsTheSnapshot | web/src/lib/jobProgress.ts:54-71 | a page that got every report of the first items shows the counts and errors the server has |
| JobView.MissedReportsDoNotMatter | web/src/lib/jobProgress.ts:5-6 | whatever reports were missed, the counts are those the server had at the last end of an item received |
| JobView.NeverBackIffAscending | web/src/lib/jobProgress.ts:42-71 | as long as a page shows one job, its count never goes back, if and only if no report carries less than an earlier report, or an earlier snapshot while it ran, already showed |
| JobView.LateReportMovesBack | web/src/lib/jobProgress.ts:46-67 | an input: a snapshot after two items overtakes the report of the first one's end, and the count goes back from two to one |
| JobView.TraceShowsTheFinalJob | web/src/lib/jobKinds.ts:10-42 | a page that got a job's whole trace shows the final job, completed, cancelled or failed, with what it runs on |
| JobView.FinalViewTells | web/src/lib/jobKinds.ts:10-19 | the final view's counts are the numbers of items listed, processed, succeeded, skipped and failed, and its errors those of the failed items in order |
| JobView.FinishedJobIsNotShownRunning | web/src/hooks/useJob.ts:64-95 | on every run of the page, once no dispatch waits, the last job seen to finish is not shown as running |
| JobView.LateAnswersShowTheEnd | web/src/hooks/useJob.ts:64-80 | on every run of the page, an answer that brings in a job as running leaves it shown as ended, if and only if it was shown so, or its end was seen and no other job's end after it |
| JobView.ForgottenEndShowsRunning | web/src/hooks/useJob.ts:64-80 | a run: two jobs are started and end one after the other, and a late answer about the first shows it as running |
| JobView.StartsAreShared | web/src/hooks/useJob.ts:105-126 | at most one start request is in flight, and every start call is answered once or waits for it |
| JobView.StartsAreAnswered | web/src/hooks/useJob.ts:105-126 | on every run all who wait for a start are told that it started, that a running job was taken over, or that it failed, as the request was answered |
| JobView.OthersAreAnswered | web/src/hooks/useJob.ts:67-103 | what opening the page, messages, their dispatch, effects and dismissing do |
| JobEnds.EndsAreReportedOnceIffNoneReturns | web/src/hooks/useJob.ts:97-103 | for a page that asks once as it opens, that may start and take over jobs, and that gets each message once: onFinished learns of each job's end at most once, however messages, dispatches and effects fall, if and only if no answer brings a job in again after another one |
| JobEnds.AnEndIsReportedTwice | web/src/hooks/useJob.ts:97-103 | a run: a page starts job 1, which finishes, and job 2, which fails, and the late answer to what it asked as it opened has the end of job 1 reported again |
| JobEnds.EndsDoNotRepeat | web/src/hooks/useJob.ts:97-103 | on every run no end is reported twice in a row, and a finished view is reported by the next effect |
| JobView.UseJob.ShowView | web/src/hooks/useJob.ts:68-71 | shows the remembered end in place of a view of the same job |
| JobView.UseJob.OnMessage | web/src/hooks/useJob.ts:89-95 | remembers an end at once, and queues the dispatch |
| JobView.UseJob.OnActive | web/src/hooks/useJob.ts:114-124 | adopts a job only if one is running, and answers every waiting caller |
| JobFeed.ReportsStayInOrder | internal/websocket/hub.go:45-107 | in every run, what the hub has sent to a user about a job, and after it what waits in its channel, is what the lane reported of it, in order and without a gap |
| JobFeed.OthersAreCarried | internal/websocket/hub.go:60-97 | other messages queue behind what waits, and the hub takes what waits longest |
| JobFeed.WatcherSeesTheFinalJob | web/src/hooks/useJob.ts:82-95 | in every run of the lane, the channel and the hub, a page that shows a job and gets its end over a connection, made before or during the job, shows the final job as the lane has it, among any other jobs' and kinds' messages, and whichever of the job's other reports it missed |
| JobFeed.ConnectedClientsGetTheEnd | internal/websocket/hub.go:109-138 | in every run, a connection that was there before the end was sent, and still is once all is sent, gets the end |
| JobFeed.ConnectedWatcherShowsTheEnd | web/src/hooks/useJob.ts:82-95 | in every run, a page on such a connection that misses nothing after it showed the job shows the final job |
| JobFeed.WatcherShowsAPast | internal/websocket/hub.go:119-138 | at any time of any run, with a connection made before or during the job, kept, dropped or left, such a page shows the final job if it got the end, and otherwise the counts it started with or the server had at the end of some item |
| KeyframeService.StepKeepsInv | internal/service/keyframe_service.go:70-181 | every locked section, repository access and probe keeps the protocol's invariant |
| KeyframeService.OnePlayedProbePerVideo | internal/service/keyframe_service.go:106-128 | in every run a video is marked in flight exactly while one probe that a lookup started runs; every stored index is a non-empty grouping |
| KeyframeService.FaultsAreRememberedUntilIndexed | internal/service/keyframe_service.go:143-157 | a failure mark is erased only with an index stored, and an outcome is recorded before the in-flight mark is cleared |
| KeyframeService.MarkStays | internal/service/keyframe_service.go:143-157 | from a recorded fault on, as long as no index is stored, the mark stays and only gets later |
| KeyframeService.FailureStandsForTheCooldown | internal/service/keyframe_service.go:70-83 | a lookup within the cooldown of a recorded fault, with no index stored, answers that it failed and starts no probe |
| KeyframeService.AnswersAreTrue | internal/service/keyframe_service.go:66-83 | boundaries answered are the stored non-empty table, a recent failure is on record, and for "preparing" a probe is running |
| KeyframeService.LookupsDecide | internal/service/keyframe_service.go:66-115 | which answer each lookup gets, and when it starts a probe |
| KeyframeService.NoneIsStuck | internal/service/keyframe_service.go:66-181 | every lookup gets an answer and every build can end |
| KeyframeService.ScanDecides | internal/service/keyframe_service.go:161-175 | a probe that failed or found nothing to cut is the file's fault, a cancelled one is nobody's, any other yields the grouping to store |
| KeyframeService.MarksAreRecorded | internal/service/keyframe_service.go:146-157 | failure marks change only as a build is recorded: set to now for a fault, removed for a stored table, and left alone otherwise |
| KeyframeService.MarksAreEarned | internal/service/keyframe_service.go:139-157 | in every run a failure mark comes of a probe of that video that found the file at fault, never of a cancelled one or of a refused store |
| KeyframeService.BrokenFilesFailLookups | internal/service/keyframe_service.go:143-157 | in every run, once a scan that found the file at fault is recorded, lookups of the cooldown fail as long as no index is stored |
| KeyframeService.ProbesStartOnlyWhenNeeded | internal/service/keyframe_service.go:70-83 | a lookup starts a probe only of a video with none running, after it found it without an index and then without a failure in the cooldown |
| KeyframeService.Service.LookupOrProbe | internal/service/keyframe_service.go:70-83 | the four answers, and whether a probe starts |
| KeyframeService.Service.TriggerProbe | internal/service/keyframe_service.go:107-128 | marks the video; starts a probe only if it was not marked |
| KeyframeService.Service.IndexFile | internal/service/keyframe_service.go:146-157 | success forgets a failure, a fault of the file is remembered, and a cancelled probe or a store failure changes nothing |
| KeyframeService.Service.BuildIndex | internal/service/keyframe_service.go:161-181 | what is stored is the grouping of what was probed, never an empty table |
| StreamSource.OneInstanceIsAlive | web/src/lib/streamSource.ts:89-119 | in every run every hls instance made is destroyed but the current one; after dispose there is none and the element has no source |
| StreamSource.RetriesAreBounded | web/src/lib/streamSource.ts:99-116 | without a parsed manifest, every not-ready error is retried until there were 20, and none after |
| StreamSource.ManifestRestoresRetries | web/src/lib/streamSource.ts:113-116 | a parsed manifest gives all 20 retries back |
| StreamSource.GivesUpAfterTheLastRetry | web/src/lib/hlsError.ts:20-27 | each not-ready error is answered with a reload as long as fewer came before it than there are retries; the first beyond them, and each after it, reports that preparing timed out |
| StreamSource.ErrorsAreAnswered | web/src/lib/streamSource.ts:99-112 | what each hls error leads to: nothing if not fatal; the index failure, a refresh, a reload or the timeout; and a stream that failed to load for every other one |
| StreamSource.FatalErrorsAreTold | web/src/lib/hlsError.ts:20-27 | in every run the page is told of a fatal error that no retry and no refresh can help |
| StreamSource.MediaErrorsAreAnswered | web/src/lib/streamSource.ts:156-173 | an error of the element has the token refreshed once an episode and is then told |
| StreamSource.TokensAreAnswered | web/src/lib/streamSource.ts:121-139 | what a token attaches by play mode and support, after tearing the old transport down, and what the page is told of one that fails |
| StreamSource.ProgressIsAnswered | web/src/lib/streamSource.ts:113-192 | what a parsed manifest, a reload timer, a load and dispose call and tell |
| StreamSource.LoadRestoresRefresh | web/src/lib/streamSource.ts:141-143 | a successful load gives the token refresh back |
| StreamSource.PageIsTold | web/src/lib/streamSource.ts:82-87 | on every run the state reported last is the Stream Source's own |
| StreamSource.OneRefreshPerEpisode | web/src/lib/streamSource.ts:156-173 | until a load succeeds one token is asked for, if and only if there was a fault and none was asked for before |
| StreamSource.ResumedOnce | web/src/lib/streamSource.ts:141-154 | playback resumes from the Watch Progress once, on the first load, and never without progress |
| StreamSource.RecoveryReturnsToTheFault | web/src/lib/streamSource.ts:156-169 | after a recovery the next load goes back to the position of the fault that asked for the token |
| StreamSource.SilentAfterDispose | web/src/lib/streamSource.ts:180-192 | in every run, after dispose: no state report, no token fetch, no attach and no move, whatever promises settle |
| StreamSource.ReloadsAreCancelledIffOrderly | web/src/lib/streamSource.ts:89-105 | in every run, disposing cancels the pending reload at every moment, if and only if no retried error arrives while another reload is pending |
| StreamSource.OrderlyDisposeIsFinal | web/src/lib/streamSource.ts:180-192 | in such a run nothing at all is called after dispose |
| StreamSource.TwoErrorsLeakAReload | web/src/lib/streamSource.ts:101-104 | a run whose first reload survives dispose and reloads a destroyed instance |
| StreamSource.StepCounts | web/src/lib/hlsError.ts:20-27 | which events schedule a reload, ask for a token or resume, and that no other does |
| StreamSource.Source.OnError | web/src/lib/streamSource.ts:99-112 | each class of hls error leads to its action |
| StreamSource.Source.AttachToken | web/src/lib/streamSource.ts:121-139 | tears the old transport down and attaches by play mode and support |
| StreamSource.Source.OnLoaded | web/src/lib/streamSource.ts:141-154 | restores the refresh, moves to the pending or first position, and reports playing |
| StreamSource.Source.DisposeSource | web/src/lib/streamSource.ts:181-191 | idempotent: tears down and clears the element's source |
| PlaybackSession.WatchTimeIsConserved | web/src/lib/playbackSession.ts:99-134 | at every moment the play time sent and pending is the sum of the clamped samples |
| PlaybackSession.ForwardPlayCounts | web/src/lib/heartbeat.ts:8-12 | forward playback counts at most the whole seconds it moved, and exactly those if and only if no step exceeds the cap |
| PlaybackSession.RecordHeartbeat | internal/service/watch_session_service.go:24-38 | refuses empty ids and negative deltas, and stores the clamped delta and position |
| PlaybackSession.ServerStoresNoMoreThanSent | internal/service/watch_session_service.go:24-38 | whichever reports are lost, the server stores at most what was sent, and all of it if and only if every heartbeat arrives and none exceeds the cap |
| PlaybackSession.CountedIsPlayed | web/src/lib/playbackSession.ts:129-139 | what is counted is at most what was played forward, seeks and moves starting anew, and exactly that if and only if no step exceeds the cap |
| PlaybackSession.StoredIsPlayed | web/src/lib/playbackSession.ts:75-187 | from player to server, whichever reports are lost: never more is stored than was played; a session that ended has stored all of it if and only if no time update lies more than the cap ahead, no stretch between two reports counts more than the cap, and every heartbeat arrives |
| PlaybackSession.LastPositionIsSaved | web/src/lib/playbackSession.ts:148-155 | a session that ended at least a second in leaves its last second as the last progress saved |
| PlaybackSession.EndedIsSettled | web/src/lib/playbackSession.ts:146-185 | once ended nothing is pending and the last position is saved |
| PlaybackSession.NothingAfterEnd | web/src/lib/playbackSession.ts:169-186 | after the end nothing changes and nothing is sent |
| PlaybackSession.TelemetryOnce | web/src/lib/playbackSession.ts:111-127 | telemetry goes out once if the page is ever left after playing, and otherwise never |
| PlaybackSession.ProgressIsSpaced | web/src/lib/playbackSession.ts:89-97 | no two successive progress reports are for the same second, and throttled ones keep ten seconds apart |
| PlaybackSession.ProgressIsSaved | web/src/lib/playbackSession.ts:89-144 | on every run a time update sends its second exactly if it is new and the last was sent ten seconds ago, and a pause past the first second exactly if it is new |
| PlaybackSession.SavedPositionIsFresh | web/src/lib/playbackSession.ts:89-97 | on every run, after a time update its second is the one saved last or one was saved less than ten seconds ago; after a pause it is saved |
| PlaybackSession.LeavingIsReported | web/src/lib/playbackSession.ts:99-185 | on every run, what a hidden page, one that is left, the end and each interval send |
| PlaybackSession.Session.SaveProgress | web/src/lib/playbackSession.ts:89-97 | sends a report unless the second repeats or it is throttled |
| PlaybackSession.Session.OnTime | web/src/lib/playbackSession.ts:129-134 | reports throttled progress and counts the clamped step |
| PlaybackSession.Session.Finish | web/src/lib/playbackSession.ts:175-185 | idempotent: ends the session with its final reports |
| RemoteResource.LatestFetchWins | web/src/hooks/useRemoteResource.ts:51-71 | a response lands if and only if, since its fetch was issued, no other was issued and neither the key nor the page was left |
| RemoteResource.AnswersShow | web/src/hooks/useRemoteResource.ts:54-65 | an overtaken answer changes nothing; the last one shows its data, or its error unless data of the same key is shown |
| RemoteResource.ShownDataStays | web/src/hooks/useRemoteResource.ts:12-17 | data once shown stays shown through reloads, failures, edits and overtaken answers in any order, until the page changes its key or retries |
| RemoteResource.ShownUnderItsKey | web/src/hooks/useRemoteResource.ts:83-85 | data is shown only under the key it was loaded for, and is a fetch's answer edited in place since |
| RemoteResource.LoadingIsOnItsWay | web/src/hooks/useRemoteResource.ts:67-78 | a page that shows loading has an unanswered fetch for its key that will land |
| RemoteResource.DataNeverGoesBack | web/src/hooks/useRemoteResource.ts:51-65 | data shown is never replaced by that of an earlier fetch |
| RemoteResource.Resource.OnAnswer | web/src/hooks/useRemoteResource.ts:57-63 | sets the state only for the latest generation |
| RemoteResource.Resource.KeyEffect | web/src/hooks/useRemoteResource.ts:67-71 | leaves the old key's generation and fetches for the new key |
| RemoteResource.Resource.RetryLoad | web/src/hooks/useRemoteResource.ts:74-78 | shows loading under the current key and fetches again |

## Left out

- Playlist.PlaylistReadsBack: for tables of at most 100000 segments whose durations print in at most 400
  characters, as every finite 64-bit float does; longer lines would not fit the line scanner's buffer.
- JobFeed.WatcherSeesTheFinalJob: one connection at a time; after a reconnect it applies again, to the page as
  it is then.
- JobEnds.EndsDoNotRepeat: speaks of successive ends only; for all of them see
  `EndsAreReportedOnceIffNoneReturns`.
- CacheProtocol.WaitersAreServed: a waiter's segment is being generated, not that generating ever ends.
- Rounding of 64-bit floats: seconds are `real`, so sums and differences are exact.
- The text of ffprobe's and the muxer's output: `parseKeyframeProbe` is not modelled, and of
  `parseSegmentList` only that unreadable rows are skipped.
- ffmpeg, ffprobe, temporary files and the copying of parts: only their part lists and their success or
  failure are modelled.
- `EnsureSegment` as one method: its waiting loop is the steps Ask, Wake and GiveUp of `CacheProtocol`;
  fairness and timeouts of waiting are not modelled.
- A directory that cannot be removed: the code logs it and goes on.
- `SegmentCache.Store` stands for the cache under its lock; its `disk` and `dirs` stand for the files.
- Job metadata (`Meta`) beyond a name of what the job runs on, and the listing of files and Videos as items.
- Play modes that never read a Keyframe Index: `EnsureIndex` does nothing for them.
- JSON, WebSocket I/O, pings and read limits; a report that cannot be encoded.
- `<video>` and hls.js beyond the events they raise; a source that hls.js sets on the element itself.
- The fields of the quality summary that telemetry only copies.
- React's scheduling beyond renders, effects and ignored updates after unmounting; a promise that rejects
  for `reload`'s caller.
- Repositories, HTTP handlers, authentication, scrapers, enrichment and the pages themselves.
