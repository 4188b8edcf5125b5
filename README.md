# Playlist audio downloader: engine, store and logger

This project models the worker behind a desktop playlist downloader.

- **`DownloadEngine`** (module `Engine`): given a playlist URL, it does two things:
  1. It reconciles the playlist with a local store. The flat extraction yields a playlist row, and each new entry becomes a PENDING video row.
  2. It goes through the rows that are not COMPLETED, one by one:
     - it checks for a stop request;
     - it looks in the output directory for an audio file that already carries the video id;
     - it waits out an active rate-limit pause;
     - it makes up to three download attempts.

  The outcome of each item is written back as COMPLETED, with the predicted file path, or as ERROR, with the message. A rate-limited attempt sets the pause flag and cools down for five minutes. The interface thread may call `request_stop` at any moment; this sets the stop flag and clears the pause.
- **`DatabaseManager`** (module `Store`): the SQLite store. It holds a settings table, a playlists table with unique URLs, and a videos table with the rule `UNIQUE(playlist_id, video_id)`. Row ids come from AUTOINCREMENT counters.
- **`ConsoleLogger`** (module `Logger`): it maps each log call of the downloader library to the line handed to the interface callback, or to no line at all.

Modules:

- `Wrappers` is the optional value, Python's `None`.
- `Text` holds the substring, suffix and `rfind` operations used by the source, and POSIX `os.path.splitext`/`os.path.join`.
- `Store` holds the tables as values (functions and lemmas), plus the `DatabaseManager` class whose methods update the tables in place.
- `EngineSpec` defines each step of the engine as a function of an explicit **World** and states the properties of a run.
  - The World is what the outside supplies: the extraction result, the directory listing seen by item `k`, the outcome of attempt `a` of item `k`, and where a stop request lands.
- `Engine` is the imperative `DownloadEngine` class. Each method is proved to leave the flags, the store and the log of download calls exactly as its `EngineSpec` function says.

Stop requests are modelled as points (`Slot`s) where the worker reads or writes the flags. At each such point, `World.stopArrives` says whether `request_stop` has just run. This includes the moment during a download call, after which the worker may set the pause flag again. One-second sleeps of the interruptible waits are counted in `ticks`. `calls` records the row id of every download call.

Behaviours of the code that the model keeps as they are:

- **Rate-limit signatures.** A download error counts as throttling only when its message contains "HTTP Error 429" or "rate-limited".
- **Rate limit timing.**
  - A RATE_LIMIT outcome cools down for five minutes inside the retry loop and leaves the pause flag set.
  - The next item that reaches the download stage waits another 60 seconds, then clears the flag.
- **Missing video id.** An item with no video id, reached while the output directory is not empty, makes the duplicate scan raise (`None in f_name`), and the run ends there (`CrashedOnMissingId`).
- **Stop inside the retry loop.** A stop that interrupts the retry loop leaves that item's row unchanged: PENDING, or ERROR for a row being retried from an earlier run (WriteOf gives no write for an interrupted item). The loop stops at the next item's check, and if that item was the last one, the run ends as finished.
- **Hook filename.** The recorded path is "Unknown" when the progress hook reported no filename or an empty one. A filename that is literally "Unknown" is also kept as is, without the extension rewrite.

## Model

| member | source | states |
|---|---|---|
| Logger.Debug | Logger.py:16 | debug output never reaches the callback |
| Logger.Info | Logger.py:18-20 | a message is dropped exactly when it contains both "[download]" and "Hz" as substrings (both directions); otherwise it is forwarded unchanged |
| Logger.Warning | Logger.py:22-23 | every warning is forwarded with the "⚠️ ADVERTENCIA: " prefix, and removing the prefix gives the original message back |
| Logger.Error | Logger.py:25-26 | every error is forwarded with the "❌ ERROR INTERNO: " prefix, and removing the prefix gives the original message back |
| Text.ContainsIff | Engine.py:159 | the scan used for Python's `in` on strings is true exactly when some window of the string equals the needle |
| Text.SplitExt | Engine.py:127 | the stem and the extension concatenate back to the path; the extension is empty or starts with its only '.' and holds no '/'; it is non-empty exactly when the final path component has a '.' after some other character |
| Text.SplitExtReplaced | Engine.py:126-129 | giving a path that has an extension the extension "." + format keeps the stem and makes "." + format the extension |
| Text.Join | Engine.py:69 | an absolute name replaces the directory; otherwise the result starts with the directory, ends with the name, and has exactly one '/' between them when the directory is non-empty (none added when it already ends with '/') |
| Store.FindPlaylist | Database.py:64-67 | a found id belongs to a row with that URL; nothing is found only when no row has the URL |
| Store.CreatePlaylist | Database.py:62-73 | afterwards a playlist row with the URL carries the returned id, and the videos table and its counter are untouched |
| Store.CreatePlaylistOk | Database.py:62-73 | get_or_create_playlist returns the id recorded for the URL and changes nothing, or appends exactly one row with the next id; the tables stay well formed and the videos table is untouched |
| Store.CreatePlaylistStable | Database.py:62-73 | a second call with the same URL, under any title, returns the same id and inserts nothing |
| Store.VideoUrl | Database.py:82-84 | the stored URL is `url` when truthy, else `webpage_url` when truthy, else the watch URL of the id when the id is truthy, else `webpage_url`'s own (falsy) value; it is truthy exactly when one of the three is |
| Store.AddAll | Database.py:75-96 | existing rows are kept as a prefix; every added row is PENDING in the playlist with no error and no path; the counter and the returned count both grow by the number of rows inserted, which is at most the number of entries |
| Store.AddOne | Database.py:78-94 | an entry leaves the table unchanged exactly when it is falsy or its (playlist, id) pair is taken; otherwise exactly one row is appended under the next id: PENDING, with the entry's id, its title or "Unknown", the URL VideoUrl derives, no error and no path (the row NewRow builds) |
| Store.AddAllRows | Database.py:75-96 | each inserted row takes the next id in turn and comes from a non-empty entry whose id was not yet recorded in the playlist: video id, title (or "Unknown") and URL are that entry's |
| Store.AnonymousInserted | Database.py:79-94 | a non-empty entry without an id is always inserted, raising the count by one, since a NULL video id never clashes |
| Store.AddAllOk | Database.py:75-96 | adding entries keeps ids increasing below the counter and never creates two rows with the same (playlist, non-null video id) |
| Store.AddAllRecords | Database.py:78-94 | afterwards every non-empty entry that has an id is recorded in the playlist, either newly inserted or already there |
| Store.AddAllNoop | Database.py:86-94 | entries that are all already recorded insert nothing and return 0 |
| Store.AddAllIdempotent | Database.py:75-96 | reconciling the same id-bearing entries a second time returns 0 and leaves the table unchanged |
| Store.PendingOf | Database.py:98-102 | an item is pending exactly when it is the projection of a row of the playlist whose status is not COMPLETED (both directions), so ERROR rows are offered again |
| Store.CompletedOf | Database.py:104-108 | an item is returned exactly when it is the (id, filepath) of a COMPLETED row of the playlist (both directions) |
| Store.PendingCompletedSplit | Database.py:98-108 | the pending and the completed queries together return exactly as many items as the playlist has rows |
| Store.PendingSorted | Database.py:98-102 | in a well-formed table the pending items come in strictly increasing id order, so no item is listed twice |
| Store.UpdateRows | Database.py:113-115 | the UPDATE keeps the number of rows; which rows and columns change is stated by UpdateFrame |
| Store.UpdateFrame | Database.py:110-116 | an update sets the status, error and path of the row with that id and changes nothing else in any row |
| Store.UpdateIdempotent | Database.py:110-116 | repeating an update changes nothing further |
| Store.UpdateOk | Database.py:110-116 | an update keeps the videos table well formed |
| Store.UpdateThenPending | Database.py:98-116 | after marking a row COMPLETED it leaves the pending set; after marking it anything else it is still pending |
| Store.ApplyAllFrame | Database.py:110-116 | a sequence of updates keeps every row's identity, leaves rows it never names unchanged, and leaves each named row with a status one of its writes gave it |
| Store.ApplyAllOk | Database.py:110-116 | a sequence of updates keeps the videos table well formed |
| Store.DatabaseManager.constructor | Database.py:5-46 | a new database file has the three tables, all empty, with both counters at 1 |
| Store.DatabaseManager.SaveSetting | Database.py:49-53 | INSERT OR REPLACE: the key now maps to the value; every other setting is kept |
| Store.DatabaseManager.LoadSettings | Database.py:55-59 | returns every stored setting as a dictionary |
| Store.DatabaseManager.GetOrCreatePlaylist | Database.py:62-73 | the new tables and the returned id are those of CreatePlaylist, and the store stays well formed |
| Store.DatabaseManager.AddVideosToPlaylist | Database.py:75-96 | the loop over the entries leaves the videos, the counter and the count that AddAll defines, and the store stays well formed |
| Store.DatabaseManager.GetPendingVideos | Database.py:98-102 | returns the pending items of the playlist as PendingOf characterises them |
| Store.DatabaseManager.GetCompletedVideos | Database.py:104-108 | returns the completed items of the playlist as CompletedOf characterises them |
| Store.DatabaseManager.UpdateVideoStatus | Database.py:110-116 | the videos table becomes the single update UpdateRows describes (see UpdateFrame, UpdateOk) |
| EngineSpec.Polled | Engine.py:16-18 | at a point where a stop request lands the stop flag is set and the pause cleared; otherwise the flags are unchanged; no time passes |
| EngineSpec.RequestStop | Engine.py:16-18 | after a stop request the stop flag is set and the pause flag is clear; no time passes |
| EngineSpec.DownloadSafe | Engine.py:152-163 | OK exactly when the call returned; CRITICAL exactly when it raised something other than a download error; RATE_LIMIT or ERROR exactly for download errors; every failure carries the exception message |
| EngineSpec.RateLimitIff | Engine.py:157-161 | a download error is RATE_LIMIT exactly when its message contains "HTTP Error 429" or "rate-limited" |
| EngineSpec.Countdown | Engine.py:165-171 | an interruptible wait sleeps at most its length, sleeps all of it unless it stops, never clears a stop, and never sets the pause |
| EngineSpec.CountdownStopIff | Engine.py:165-171 | a wait ends stopped exactly when the flag was already set or a stop request landed before one of its ticks |
| EngineSpec.PauseWait | Engine.py:78-85 | after the rate-limit pause the pause flag is clear unless a stop is pending; with the pause set and no stop it sleeps exactly 60 seconds, and without the pause it does not sleep |
| EngineSpec.SavedPath | Engine.py:124-129 | the recorded path is "Unknown" or ends with "." + the configured format |
| EngineSpec.SavedPathCases | Engine.py:124-129 | the recorded path is "Unknown" exactly when the hook gave no filename, an empty one or "Unknown" itself, and a filename without an extension simply gains "." + format |
| EngineSpec.ExtensionRewritten | Engine.py:122-129 | for a hook filename with an extension, the recorded path keeps the stem with the configured format as its extension, and predicting it again changes nothing |
| EngineSpec.AttemptOnce | Engine.py:115-143 | one attempt is interrupted exactly when the stop flag is set at its start; otherwise it counts as an attempt; it asks for a retry only after an ERROR or CRITICAL outcome, carrying that message |
| EngineSpec.Retry | Engine.py:111-146 | the retry loop makes at most three attempts; it gives up only after the third; a stop already set means no attempt; an interrupted loop leaves the stop flag set |
| EngineSpec.RetryTrail | Engine.py:115-146 | every attempt before the last was ERROR or CRITICAL, and so was every attempt made before a stop interrupted the loop |
| EngineSpec.RetryGaveUp | Engine.py:140-146 | giving up means the third attempt was ERROR or CRITICAL, and its message is the one recorded |
| EngineSpec.RetryDownloaded | Engine.py:90-132 | a download verdict comes from an OK attempt, and its path is SavedPath of the filename the progress hook last reported during the item's attempts (LastHook, the latest attempt whose hook fired): "Unknown" or that name in the configured format |
| EngineSpec.RetryThrottled | Engine.py:134-138 | a throttled verdict comes from a RATE_LIMIT attempt; it leaves the pause set unless a stop cleared it, after the full five-minute cool-down unless a stop cut it short |
| EngineSpec.RetryQuiet | Engine.py:111-146 | only the rate-limit cool-down adds ticks inside the retry loop |
| EngineSpec.RetrySettles | Engine.py:111-146 | with no stop request and no throttling, the retry loop ends in a download or in giving up, never interrupted |
| EngineSpec.MatchesIff | Engine.py:68 | a file matches (the predicates Matches and IsAudio) exactly when the video id occurs in its name and the name ends with .mp3, .m4a, .wav or .flac |
| EngineSpec.FirstMatch | Engine.py:66-68 | returns the first index at or after the start whose file is an audio file naming the video id, or the end of the listing |
| EngineSpec.DuplicateGuard | Engine.py:65-73 | with no video id and a non-empty listing the scan raises; no match exactly when the listing is empty or no file matches; a match is the first matching file of the listing |
| EngineSpec.WriteOf | Engine.py:121-146 | a download writes COMPLETED with the path and an empty error; giving up writes ERROR with the message and an empty path; the other verdicts write nothing |
| EngineSpec.Step | Engine.py:57-148 | one item makes at most one status write, for its own row and never back to PENDING; it makes at most three attempts; it makes neither when it stops the loop or raises |
| EngineSpec.DuplicateCompletes | Engine.py:65-76 | a matching file completes the item with the joined path of a listed file and no download call |
| EngineSpec.StepSettles | Engine.py:57-148 | with no stop request and no throttling, an item that does not raise gets a status write and the loop goes on |
| EngineSpec.ItemAt | Engine.py:57-148 | iteration k of the item loop (Walk): from the flags the first k iterations left, at most one write, for item k's row and never to PENDING, at most three attempts, and neither when the loop stops or raises |
| EngineSpec.StopEndsWalk | Engine.py:58-60 | a stop seen at the top of item k ends the loop: no later write and no later download call |
| EngineSpec.WalkFootprint | Engine.py:57-148 | every status write and every download call of the loop names an item it visited; no write is to PENDING; there are no more writes than items visited |
| EngineSpec.WalkWritesSorted | Engine.py:57-148 | over items in increasing id order, the loop's status writes come in strictly increasing row id order |
| EngineSpec.WalkWritesDistinct | Engine.py:57-148 | over items with distinct ids, in any order, no row is written twice |
| EngineSpec.WalkCallsCapped | Engine.py:111-117 | over items with distinct ids, no row id is sent to the downloader more than three times |
| EngineSpec.WalkSettles | Engine.py:57-148 | with no stop request and no throttling, a loop that does not raise writes every item exactly once, in order |
| EngineSpec.EntriesOf | Engine.py:38-39 | the entries are the 'entries' list when the key holds a list, the info itself as a one-element list when the key is missing, and none (list(None) raises) when it holds None |
| EngineSpec.Reconcile | Engine.py:31-44 | an extraction that raised or returned None changes nothing; reconciliation succeeds exactly when the extraction returned info whose entries are not None |
| EngineSpec.ReconcileShape | Engine.py:31-44 | a raising or None extraction changes nothing; a None entries list adds no video and fails; otherwise it reconciles, appending exactly as many rows as it reports added and at most one per entry (at most one for the info itself), keeping the existing rows as a prefix, with a playlist row for the URL under the returned id; the tables stay well formed (which entries are recorded is stated by ReconcileRecords, the playlist row by ReconcilePlaylist) |
| EngineSpec.ReconcilePlaylist | Engine.py:35-36 | a successful extraction registers the playlist under its URL even when its entries are None, and a new row takes the info's title or "Lista Sin Titulo" |
| EngineSpec.ReconcileRecords | Engine.py:38-39 | afterwards every non-empty entry with an id, from 'entries' or from the info itself when the key is missing, is recorded in the run's playlist |
| EngineSpec.RunSpec | Engine.py:20-150 | the run ends with an analysis error exactly when reconciliation fails, and with nothing to do exactly when it succeeds with an empty pending set |
| EngineSpec.RunWithoutWork | Engine.py:42-52 | a failed analysis or an empty pending set ends the run with no download call and the store as reconciliation left it |
| EngineSpec.RunStoppedEarly | Engine.py:20-60 | a stop before the first item leaves every row as reconciliation left it, makes no download call, and ends stopped by the user with the pause clear |
| EngineSpec.RunRetryCap | Engine.py:47-148 | a run sends each row id to the downloader at most three times |
| EngineSpec.PendingWritesFrame | Database.py:110-116 | writes that each name a pending row of the playlist change only that row's status, error and path, never back to PENDING, and keep the table well formed |
| EngineSpec.RunTouchesOnlyPending | Engine.py:20-150 | a run changes, beyond reconciliation, only the status, error and path of rows that were pending in its playlist, never back to PENDING, and keeps the store well formed |
| EngineSpec.AllPendingWritten | Database.py:98-116 | writing every pending item of a playlist to a status other than PENDING leaves no row of that playlist PENDING |
| EngineSpec.PendingAreErrors | Database.py:98-102 | when no row of a playlist is PENDING, its pending set is exactly its ERROR rows, which the next run retries |
| EngineSpec.RunSettlesAll | Engine.py:20-150 | with no stop request and no throttling, a run that does not raise finishes and leaves no row of its playlist PENDING |
| Engine.FindExisting | Engine.py:65-73 | the directory scan loop returns exactly the verdict DuplicateGuard characterises |
| Engine.DownloadEngine.constructor | Engine.py:10-14 | a new engine is neither stopped nor paused, over a new empty store |
| Engine.DownloadEngine.Poll | Engine.py:16-18 | the flags become those Polled gives for that point |
| Engine.DownloadEngine.RequestStop | Engine.py:16-18 | the flags become those of EngineSpec.RequestStop |
| Engine.DownloadEngine.Sleep | Engine.py:167-171 | the one-second sleep loop leaves the flags and the tick count that Countdown gives |
| Engine.DownloadEngine.WaitCooldown | Engine.py:165-171 | the cool-down of `minutes` minutes is the Countdown of minutes * 60 ticks |
| Engine.DownloadEngine.PauseForRateLimit | Engine.py:78-85 | the pause loop leaves the flags PauseWait gives |
| Engine.DownloadEngine.TryOnce | Engine.py:115-138 | one attempt settles the loop, or asks for a retry, exactly as AttemptOnce says; it logs one download call unless stopped first, and writes only the COMPLETED row of an OK outcome |
| Engine.DownloadEngine.RetryPass | Engine.py:115-146 | one pass of the retry loop either ends it as Retry says, with the ERROR row after the third failure, or moves on to the next attempt |
| Engine.DownloadEngine.DownloadWithRetries | Engine.py:111-146 | the retry loop ends with Retry's verdict, attempt count and flags; it makes one download call per attempt and writes the row WriteOf gives |
| Engine.DownloadEngine.ProcessItem | Engine.py:57-148 | one iteration changes the flags, the download calls and the store as Step says |
| Engine.DownloadEngine.Synchronize | Engine.py:31-44 | the store becomes what Reconcile gives; the playlist id is returned exactly when reconciliation succeeds |
| Engine.DownloadEngine.ProcessAt | Engine.py:57-148 | item i takes the engine from the walk over the first i items to the walk over the first i + 1 |
| Engine.DownloadEngine.ProcessPending | Engine.py:57-150 | the item loop leaves the flags, the calls and the store that Walk gives for all pending items, and the store stays well formed |
| Engine.DownloadEngine.Run | Engine.py:20-150 | a run leaves the store, the flags and the download calls that RunSpec gives, and reports how it ended; the store stays well formed |

## Left out

- Log lines handed to the callback by the engine, and the library's own output, are not modelled. Only the ConsoleLogger mapping is.
- The downloader library is an input of the World. This covers the extraction result, the download outcome per attempt, and the filename the progress hook last reported. Its options, its output template, its post-processing and the `cookie_path`, `name_template` and `bitrate` settings are not modelled.
- The five-second sleep between retries (Engine.py:143) and the random pause after each item (Engine.py:148) are not modelled. They only pass time and no flag is read during them; a stop that lands in one is seen at the next attempt's or item's check (AttemptStart or ItemStart). The interruptible waits are modelled as counted one-second ticks, without real time.
- Threads are reduced to stop requests that land at named points. Interleavings between those points are not modelled.
- `os.listdir` raising, for example when the output directory does not exist, is not modelled. The listing is an input.
- SQLite failures, commits, the `created_at`/`last_updated` timestamps, the foreign key and the persistence of `downloads.db` between sessions are not modelled.
- Store.DatabaseManager.constructor: it models a new, empty database file. Reopening an existing file is not modelled, so well-formedness is established only for stores built through these methods.
- Store.PendingOf: the pending query has no ORDER BY, so SQLite may return its rows in any order, for example by video id through the index of the uniqueness rule. The model assumes table (insertion) order. WalkWritesSorted depends on that order. WalkWritesDistinct and WalkCallsCapped do not: they need only distinct row ids, which the table guarantees in any order.
- Store.DatabaseManager.SaveSetting: the `str()` conversions of key and value are not modelled; both are already strings here.
- Store.DatabaseManager.UpdateVideoStatus: it does not itself promise well-formedness. The UpdateOk and ApplyAllOk lemmas state that, and ProcessPending re-establishes it for the whole loop.
- Store.DatabaseManager.AddVideosToPlaylist: an entry that is not a dictionary (a bare string or number) is not modelled. Entries are either null or dictionaries with the four keys the source reads.
- Store.AddOne: an entry whose 'title' key is present with the value None is treated like one without the key, so its row records "Unknown". The source would store NULL there, since the default of `get` applies only to a missing key.
- Engine.DownloadEngine.Synchronize: a 'title' key present with the value None is treated like a missing key, so the default title is used. The source would store None.
- EngineSpec.Walk: its properties are stated by the Walk lemmas (WalkFootprint, WalkWritesDistinct, WalkCallsCapped, WalkSettles) rather than by its own contract.
- Text.SplitExt and Text.Join follow POSIX `posixpath`. Windows path rules are not modelled.
- Engine.DownloadEngine.constructor: the `log_callback` argument is not modelled, because the engine's log lines are not modelled.
- Default arguments (`title="Unknown"`, `error_msg=""`, `filepath=""`) are passed explicitly. An ERROR write therefore records an empty file path, as the source does.
