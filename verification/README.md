# Verified models of the media cache

This project models, in Dafny, the parts of the media cache system whose correctness rests on invariants, on
interleavings or on exact counting, and proves what they promise.

| file | what it models |
|---|---|
| `WriterProtocol.dfy`, `WriterProgress.dfy` | recorders, the coalescing background writer and shutdown of the CDN history, as atomic steps at lock boundaries; that no call gets stuck |
| `ResolutionModel.dfy`, `ResolutionState.dfy`, `ResolutionSelection.dfy`, `ResolutionOps.dfy`, `ResolutionCreate.dfy` | the resolution snapshot store as values: validation, byte estimate, paging, eviction, selection |
| `ResolutionStore.dfy` | the same store as an object updated in place, proved equal to the values |
| `ResolutionBytes.dfy` | what a session owns, against what it was charged |
| `ResolutionRuns.dfy`, `ResolutionWalks.dfy`, `ResolutionGuarantees.dfy` | whole runs of the store: invariant, paging walks, byte reservation, selections |
| `Ordering.dfy` | sorting by a strict total order |
| `CdnHealth.dfy`, `CdnHealthRuns.dfy`, `CdnHealthTable.dfy` | the CDN health table: records, pruning, runs, loading, and the table updated in place |
| `CdnHealthRecord.dfy` | what one observation does to the table |
| `CdnHealthTraces.dfy`, `CdnHealthReload.dfy`, `CdnHealthClock.dfy`, `CdnHealthSurvival.dfy` | what its records mean, what survives saving and loading, what a clock that goes back costs, and whether a record just written stays |
| `CdnRanking.dfy`, `CdnFanout.dfy` | ranking the URLs of a request and fanning range requests out over origins |
| `CdnEncoding.dfy` | the bytes hashed to name a representation |
| `CredentialBindings.dfy`, `BindingsProgress.dfy` | compare-and-swap on the file of credential bindings by several processes; that no call gets stuck |
| `ProcessGroup.dfy`, `ProcessProgress.dfy` | stopping an owned process group from several threads; that a stop can be carried through |
| `StageLog.dfy` | the bounded log and the result record of a CI stage |
| `LibraryPagination.dfy` | the client's loop over library pages |
| `DnsLabel.dfy` | DNS label normalisation |
| `Prelude.dfy` | options, results, 64-bit saturation |

Conventions. A `Text` is a string with one `char` per UTF-8 byte, so its length is Rust's `len()`. Times and sizes are
natural numbers; where the source saturates or checks for overflow at 64 bits the model does too. What the code gets from
outside is a parameter: URL parsing (`canonical_origin`, assumed idempotent), SHA-256 (any function to 32 bytes), UUIDs
(a list of values not used before), clock readings, the answers of the operating system, sizes of Rust types.
Operations that change state are modelled twice, once as a function on values, about which the properties are proved, and
once in the imperative form of the source, proved equal to it.

Three properties hold only under a condition, and the project states both sides. A failed write does stall the writer
(`WriterProtocol.FailedWriteStalls`). Saving and loading a health table loses exactly the records whose cooldown or
quarantine ends too long after their last event (`CdnHealthReload.ReloadIsExact`, over every run with any clock); with a
clock that does not go back there are none (`CdnHealthReload.ReachableTableReloads`), and a clock that goes back loses
records in both ways (`CdnHealthClock.SetBackLosesQuarantine`, `CdnHealthClock.SetBackLosesCooldown`). A record just
written is the one evicted exactly when the table overflows within one second and it is the least key
(`CdnHealthSurvival.LastHostStays`, `CdnHealthSurvival.LastRepresentationStays`), and that does happen
(`CdnHealthSurvival.HostIsLostAtOnce`).

Verify with `dafny verify dfyconfig.toml`.

## Model

| member | source | states |
|---|---|---|
| `WriterProtocol.StepKeepsInv` | CacheServer/RustCacheServer/src/cdn_history.rs:446-620 | Every atomic step of any recorder, writer task or shutdown call keeps the protocol invariant (locks, the running and idle flags, the versions held by threads, the version on disk). |
| `WriterProtocol.RunKeepsInv` | CacheServer/RustCacheServer/src/cdn_history.rs:446-620 | Over every interleaving the invariant holds, the history only grows and the file only moves to later versions. |
| `WriterProtocol.NoUpdateIsLost` | CacheServer/RustCacheServer/src/cdn_history.rs:446-620 | At most one writer task exists; with the writer lock free, idle is the opposite of running; the file is always an earlier version of the state; and while admission is open, a path exists and nothing failed since the last spawn, a file behind the state implies a running writer or a recorder still on its way to schedule_write. |
| `WriterProtocol.QuietSystemIsSaved` | CacheServer/RustCacheServer/src/cdn_history.rs:532-620 | When every recorder and the writer have finished and nothing failed, the file holds every observation of the state. |
| `WriterProtocol.StepMovesDiskForward` | CacheServer/RustCacheServer/src/cdn_history.rs:959-974 | Only the two renames change the file and neither ever puts back an older version. |
| `WriterProtocol.EarlierTotal` | CacheServer/RustCacheServer/src/cdn_history.rs:959-974 | Two versions of one history are ordered by their sequence numbers, which is why comparing sequence numbers under the persistence lock is enough. |
| `WriterProtocol.CallStateIsFixed` | CacheServer/RustCacheServer/src/cdn_history.rs:265-291 | The state noted at a shutdown call stays noted for that call, and a returned call stays returned. |
| `WriterProtocol.ShutdownSavesEverything` | CacheServer/RustCacheServer/src/cdn_history.rs:265-291 | After a shutdown call returned with a successful write, whatever happens next, the file holds every observation counted before the call, admission is closed and no writer task exists, with any number of concurrent recorders and shutdowns. |
| `WriterProtocol.OnlyShutdownWritesAfterwards` | CacheServer/RustCacheServer/src/cdn_history.rs:265-291 | Once a shutdown has passed its wait, no recorder can start a writer and only shutdown calls can change the file. |
| `WriterProtocol.FailedWriteStalls` | CacheServer/RustCacheServer/src/cdn_history.rs:586-589 | The no-failure condition is needed: from every fresh start there is a run with one failed write that comes to rest with an unsaved observation, no writer and admission open. |
| `WriterProgress.ShutdownCanReturn` | CacheServer/RustCacheServer/src/cdn_history.rs:265-291 | No shutdown call gets stuck: from every state of the invariant and every point of the call, whoever holds which lock, there is a continuation without another observation to its return, from a successful write when there is a path, with everything counted before the call on disk. |
| `WriterProgress.ShutdownCanFinish` | CacheServer/RustCacheServer/src/cdn_history.rs:282-290 | A shutdown past its wait gets there by steps of its own alone. |
| `WriterProgress.WriterCanFinish` | CacheServer/RustCacheServer/src/cdn_history.rs:554-620 | Every spawned writer can end, by its own steps after whoever holds the writer lock let go; unless admission is closed or it has given up, it ends with the whole state on disk. |
| `WriterProgress.RecorderCanFinish` | CacheServer/RustCacheServer/src/cdn_history.rs:532-552 | Every recorder can leave schedule_write, and leaves a running writer or finds admission closed. |
| `WriterProgress.ClosedWriterWritesNoMore` | CacheServer/RustCacheServer/src/cdn_history.rs:554-611 | Once admission is closed, a writer past its write never takes or persists another snapshot, whatever happens. |
| `WriterProgress.WriterIsDetermined` | CacheServer/RustCacheServer/src/cdn_history.rs:554-620 | Failing apart, a writer never has a choice between two steps, so each branch of its loop is taken exactly when it should. |
| `WriterProgress.ShutdownIsDetermined` | CacheServer/RustCacheServer/src/cdn_history.rs:265-291 | Nor does a shutdown call. |
| `ResolutionModel.ValidateResolution` | CacheServer/RustCacheServer/src/bilibili_resolution.rs:422-515 | The validation loop returns the first error of the header, of a candidate in order, or of the default selection. |
| `ResolutionModel.ResolutionErrorMeaning` | CacheServer/RustCacheServer/src/bilibili_resolution.rs:422-515 | Validation passes exactly the resolutions with 1 to 10,000 candidates, header texts present and within 65,536 bytes, every candidate complete, bounded and in agreement with its content id, selection ids pairwise distinct and the default, if any, among them; each condition is written out over the fields. |
| `ResolutionModel.WhitespaceMeaning` | CacheServer/RustCacheServer/src/bilibili_resolution.rs:517-525 | What counts as blank: the width at the front of a text is that of a character with the Unicode property White_Space, and zero for any other. |
| `ResolutionModel.DecimalMeaning` | CacheServer/RustCacheServer/src/bilibili_playback.rs:133-146 | The numerals that content ids are compared with are the digits of the number without leading zeros. |
| `ResolutionModel.EstimateSessionBytes` | CacheServer/RustCacheServer/src/bilibili_resolution.rs:536-608 | The accumulating loop of checked additions returns the exact mathematical size when all of it fits in 64 bits and the overflow error otherwise. |
| `ResolutionModel.ReserveCursors` | CacheServer/RustCacheServer/src/bilibili_resolution.rs:592-607 | The reservation for page cursors is their number times the per-cursor cost, or an overflow. |
| `ResolutionState.RemovalIsExact` | CacheServer/RustCacheServer/src/bilibili_resolution.rs:407-420 | In a valid store the saturating subtractions of remove_session never saturate: exactly that session and its cursors go. |
| `ResolutionState.RestrictKeepsValid` | CacheServer/RustCacheServer/src/bilibili_resolution.rs:339-350 | Removing any set of sessions keeps the whole invariant: queue, links, totals, limits. |
| `ResolutionState.EmptiedStoreHasRoom` | CacheServer/RustCacheServer/src/bilibili_resolution.rs:399-405 | An emptied store has room for every session that passed the size checks, so the capacity loop ends with room. |
| `ResolutionState.RoomMeaning` | CacheServer/RustCacheServer/src/bilibili_resolution.rs:399-405 | In a valid store there is room exactly when the addition keeps it within 32 sessions, 50,000 candidates and 64 MiB. |
| `ResolutionState.ShortestEvictionUnique` | CacheServer/RustCacheServer/src/bilibili_resolution.rs:238-245 | The shortest oldest-first eviction that makes room is unique. |
| `ResolutionOps.EvictionCountIsShortest` | CacheServer/RustCacheServer/src/bilibili_resolution.rs:238-245 | The capacity loop evicts the shortest oldest-first prefix that makes room; every shorter prefix leaves the store crowded. |
| `ResolutionOps.EvictedMakesRoom` | CacheServer/RustCacheServer/src/bilibili_resolution.rs:238-245 | The capacity loop with its failure branch: in a valid store it ends with the shortest eviction done and its error is unreachable. |
| `ResolutionOps.PageKeepsValid` | CacheServer/RustCacheServer/src/bilibili_resolution.rs:267-308 | page keeps the store valid, including when it creates a cursor lazily or fails. |
| `ResolutionOps.PageErrorsUnreachable` | CacheServer/RustCacheServer/src/bilibili_resolution.rs:267-308 | In a valid store the snapshot-mismatch and bad-offset errors are never returned. |
| `ResolutionOps.TokenOffsetSound` | CacheServer/RustCacheServer/src/bilibili_resolution.rs:267-308 | A page token that belongs to the session resolves to an offset inside its snapshot. |
| `ResolutionOps.PageTouchesOneSession` | CacheServer/RustCacheServer/src/bilibili_resolution.rs:352-397 | Serving a page changes nothing but the page table of the session served; both totals stay. |
| `ResolutionCreate.NewSessionOk` | CacheServer/RustCacheServer/src/bilibili_resolution.rs:178-200 | A new session has a token table that inverts its candidate list, distinct tokens and no page tokens. |
| `ResolutionCreate.DefaultTokenMeaning` | CacheServer/RustCacheServer/src/bilibili_resolution.rs:201-213 | The default token is empty, or names the candidate with the default selection id. |
| `ResolutionCreate.SizeNeverOverflows` | CacheServer/RustCacheServer/src/bilibili_resolution.rs:536-608 | For validated input and 64-bit sizes no checked addition overflows, so the size-overflow error is unreachable. |
| `ResolutionCreate.CreateKeepsValid` | CacheServer/RustCacheServer/src/bilibili_resolution.rs:165-265 | create_session keeps the store valid whatever the request. |
| `ResolutionCreate.CreateAnswers` | CacheServer/RustCacheServer/src/bilibili_resolution.rs:247-265 | An accepted request ends in the first page of the store with its own new session. |
| `ResolutionCreate.CreateHolds` | CacheServer/RustCacheServer/src/bilibili_resolution.rs:165-265 | The stored session holds the request: source, title, kind, both times, truncation, context, options, the candidates in order without cover URLs under their tokens, the default token, fifteen minutes to live; and the answer is its first page with a token for the next unless it is the last. |
| `ResolutionCreate.CreateSucceedsExactly` | CacheServer/RustCacheServer/src/bilibili_resolution.rs:165-230 | A request is accepted exactly when its page size is from 1 to 200, its resolution acceptable, its expiry representable and its session within 64 MiB. |
| `ResolutionCreate.RejectedCreateRemovesOnlyExpired` | CacheServer/RustCacheServer/src/bilibili_resolution.rs:165-265 | A request is rejected exactly for a bad page size, an invalid resolution, an expiry that cannot be represented or a snapshot over the size limit; then nothing but expired sessions is removed, and the capacity error is never returned. |
| `ResolutionCreate.CreateEvictsMinimally` | CacheServer/RustCacheServer/src/bilibili_resolution.rs:225-265 | An accepted request removes the expired sessions, then exactly the shortest oldest-first prefix of the rest that makes room, and appends its own session. |
| `ResolutionSelection.SelectOffsets` | CacheServer/RustCacheServer/src/bilibili_resolution.rs:610-656 | The selection code, with its seen-set loop, computes the offsets the selection names. |
| `ResolutionSelection.ResolveMeaning` | CacheServer/RustCacheServer/src/bilibili_resolution.rs:623-638 | A list of tokens resolves exactly when all are the session's own and none repeats, to the named offsets in request order. |
| `ResolutionSelection.SelectionMeaning` | CacheServer/RustCacheServer/src/bilibili_resolution.rs:610-656 | A successful selection yields 1 to 100 distinct offsets of the snapshot: the named one, the named ones in order, the inclusive range, or all. |
| `ResolutionSelection.SelectionAccepted` | CacheServer/RustCacheServer/src/bilibili_resolution.rs:610-754 | The same of one snapshot: selected_offsets succeeds exactly for those selections, token lengths and list sizes included. |
| `ResolutionSelection.ForeignTokenRejected` | CacheServer/RustCacheServer/src/bilibili_resolution.rs:741-754 | A selection naming a token the snapshot did not issue is rejected in every mode. |
| `ResolutionSelection.RangeSelectsSlice` | CacheServer/RustCacheServer/src/bilibili_resolution.rs:639-649 | A range given by the tokens at two positions yields the slice between them. |
| `ResolutionStore.BilibiliResolutionStore.CreateSession` | CacheServer/RustCacheServer/src/bilibili_resolution.rs:165-265 | The imperative store, with its eviction loop, ends in the state and result of the value model, so all lemmas about that model apply to it. |
| `ResolutionStore.BilibiliResolutionStore.GetPage` | CacheServer/RustCacheServer/src/bilibili_resolution.rs:267-308 | The imperative page operation equals the value model and keeps the object valid. |
| `ResolutionStore.BilibiliResolutionStore.AcceptSelection` | CacheServer/RustCacheServer/src/bilibili_resolution.rs:310-337 | The imperative selection equals the value model and keeps the object valid. |
| `ResolutionStore.BilibiliResolutionStore.Prune` | CacheServer/RustCacheServer/src/bilibili_resolution.rs:339-350 | The pruning loop removes exactly the expired sessions. |
| `ResolutionStore.BilibiliResolutionStore.EvictFor` | CacheServer/RustCacheServer/src/bilibili_resolution.rs:238-245 | The eviction loop, with its capacity-unavailable branch, ends as the value model does. |
| `ResolutionRuns.RunKeepsOk` | CacheServer/RustCacheServer/src/bilibili_resolution.rs:165-419 | The store invariant and the ownership of every token ever issued hold after every run of create, page, accept and prune. |
| `ResolutionWalks.RunFrozen` | CacheServer/RustCacheServer/src/bilibili_resolution.rs:165-419 | While a session lives, no run of operations changes its candidates, snapshot id, expiry or the tokens it handed out. |
| `ResolutionWalks.LivePageSucceeds` | CacheServer/RustCacheServer/src/bilibili_resolution.rs:267-308 | A page request for a live session with a valid token succeeds with the next slice, and its next token points just behind it. |
| `ResolutionWalks.SuccessfulPageWasLive` | CacheServer/RustCacheServer/src/bilibili_resolution.rs:267-308 | A successful page request was for a live, unexpired session and a page size from 1 to 200. |
| `ResolutionWalks.StoreServesSlices` | CacheServer/RustCacheServer/src/bilibili_resolution.rs:352-397 | Whatever operations happen between two requests, every successful page is the next slice of the frozen snapshot. |
| `ResolutionWalks.WalkYieldsSnapshot` | CacheServer/RustCacheServer/src/bilibili_resolution.rs:267-397 | Paging refines slicing: a walk with any page sizes and arbitrary operations in between yields a prefix of the snapshot under one snapshot id, at least one candidate a page, and gets the empty token exactly when it has yielded all of it. |
| `ResolutionWalks.LiveWalkYieldsAll` | CacheServer/RustCacheServer/src/bilibili_resolution.rs:267-397 | A walk whose session is live and unexpired at every request reaches the empty token after at most as many requests as the snapshot has candidates, and has then yielded exactly the snapshot. |
| `ResolutionGuarantees.RunKeepsPrices` | CacheServer/RustCacheServer/src/bilibili_resolution.rs:536-608 | In every reachable store each session was charged its full estimate. |
| `ResolutionBytes.SessionStaysWithinEstimate` | CacheServer/RustCacheServer/src/bilibili_resolution.rs:536-608 | What a session owns, added up from the session itself (every text of its candidates with the token twice, the view with the id three times, options, context, table entries and the cursors created so far), is at most its estimate. |
| `ResolutionBytes.LongerTextCostsMore` | CacheServer/RustCacheServer/src/bilibili_resolution.rs:560-590 | Replacing any one text of any candidate changes the estimate by exactly the difference in length, and a token by twice that. |
| `ResolutionGuarantees.ReservationIsSound` | CacheServer/RustCacheServer/src/bilibili_resolution.rs:371-386 | After every run no session owns more bytes, added up from the session itself, than it was charged, and all together stay within 64 MiB. |
| `ResolutionGuarantees.PageSucceedsExactly` | CacheServer/RustCacheServer/src/bilibili_resolution.rs:267-308 | A page request succeeds exactly with a page size from 1 to 200, for a live unexpired session, and with no token, an empty one or one of that session. |
| `ResolutionGuarantees.EmptyTokenIsNone` | CacheServer/RustCacheServer/src/bilibili_resolution.rs:279-304 | An empty page token is the same as none. |
| `ResolutionGuarantees.AcceptedExactly` | CacheServer/RustCacheServer/src/bilibili_resolution.rs:310-337 | Exactly which selections are accepted, over their raw fields: of a live session; single mode one own token; multiple mode 1 to 100 different own tokens; both without range ends; range mode no tokens and two own ends in order over at most 100 candidates; all mode nothing named and at most 100 candidates; no other mode. |
| `ResolutionGuarantees.AcceptedSelectionMeaning` | CacheServer/RustCacheServer/src/bilibili_resolution.rs:310-337 | An accepted selection returns 1 to 100 candidates of that live session's own snapshot, as selected, and the session's own source, title, options and context. |
| `ResolutionGuarantees.OtherSessionsTokenRejected` | CacheServer/RustCacheServer/src/bilibili_resolution.rs:310-337 | In every reachable world a candidate token issued for another session is rejected, live or not. |
| `ResolutionGuarantees.PageRangeRoundTrip` | CacheServer/RustCacheServer/src/bilibili_resolution.rs:610-754 | Selecting by the first and last tokens of a page of at most 100 returns that page's candidates. |
| `Ordering.AscendingUnique` | CacheServer/RustCacheServer/src/cdn_history.rs:852-897 | Under a strict total order there is only one ascending list of given elements, so what the sorts produce does not depend on the algorithm. |
| `CdnHealth.FirstMeaning` | CacheServer/RustCacheServer/src/cdn_history.rs:865-897 | The first n keys of the sorted list are that many keys, each before every other key. |
| `CdnHealthRuns.PruneIdempotent` | CacheServer/RustCacheServer/src/cdn_history.rs:865-897 | Pruning twice at one time is pruning once. |
| `CdnHealthRuns.PruneHostsMeaning` | CacheServer/RustCacheServer/src/cdn_history.rs:865-882 | Pruning keeps only hosts younger than a day, all of them if they fit, and otherwise 256 such that no host dropped for space is younger than one kept. |
| `CdnHealthRuns.PruneRepresentationsMeaning` | CacheServer/RustCacheServer/src/cdn_history.rs:869-896 | The same of representations, with six hours and 512. |
| `CdnHealthRuns.TopKShrinks` | CacheServer/RustCacheServer/src/cdn_history.rs:852-863 | Top-k keeps at most three origins of the digest, the most recent ones, and touches no other digest. |
| `CdnHealthRuns.TopKMeaning` | CacheServer/RustCacheServer/src/cdn_history.rs:852-863 | Each origin kept of the digest is later, by time, number and then key, than each one dropped; three stay if there are three. |
| `CdnHealthRuns.RunIsBounded` | CacheServer/RustCacheServer/src/cdn_history.rs:446-519 | After every run, whatever the clock does, at most 256 hosts, 512 representations and 3 origins per digest. |
| `CdnHealthRuns.CooldownBounds` | CacheServer/RustCacheServer/src/cdn_history.rs:846-850 | The cooldown starts at 10 seconds, doubles with each failure and is capped at ten minutes from the seventh on. |
| `CdnHealthRuns.RunKeepsSound` | CacheServer/RustCacheServer/src/cdn_history.rs:746-815 | With a clock that does not go back, every stored record has a canonical origin, its own key, a hexadecimal digest and cooldown and quarantine ends within their limits. |
| `CdnHealthReload.ReloadIsExact` | CacheServer/RustCacheServer/src/cdn_history.rs:927-957 | Over every run, with any clock and from any start whose names are in order, validating the table on loading drops exactly the hosts with over 1,000,000 failures or origins over 512 bytes and the representations whose cooldown or quarantine ends more than ten minutes or six hours after their last event, whatever order the digests are visited in. |
| `CdnHealthReload.ReloadFromEmpty` | CacheServer/RustCacheServer/src/cdn_history.rs:927-957 | From the empty table, with any clock: a representation survives exactly when it is in the table and its cooldown and quarantine end in time. |
| `CdnHealthReload.ReachableTableReloads` | CacheServer/RustCacheServer/src/cdn_history.rs:927-957 | With a clock that does not go back, and from any sound and bounded start, only those hosts are dropped. |
| `CdnHealthReload.LoadedTableReloads` | CacheServer/RustCacheServer/src/cdn_history.rs:899-957 | The exact statement for the table the program starts with: whatever the file held, validated and pruned. |
| `CdnHealthReload.LoadedTableReloadsWhole` | CacheServer/RustCacheServer/src/cdn_history.rs:899-957 | And without any loss of representations when no record of the file is from the future and the clock does not go back. |
| `CdnHealthClock.SetBackLosesQuarantine` | CacheServer/RustCacheServer/src/cdn_history.rs:785-801 | From the empty table, a mismatch and then a timeout by any earlier clock leave a record in the table that loading drops: its quarantine ends too late. |
| `CdnHealthClock.SetBackLosesCooldown` | CacheServer/RustCacheServer/src/cdn_history.rs:785-801 | From the empty table, a timeout and then a mismatch by a clock ten minutes earlier leave a record that loading drops: its cooldown ends too late. |
| `CdnHealthRuns.LoadedTableIsBounded` | CacheServer/RustCacheServer/src/cdn_history.rs:899-957 | Whatever the file held, the validated and pruned table is bounded and its records are sound. |
| `CdnHealthRecord.RecordMeaning` | CacheServer/RustCacheServer/src/cdn_history.rs:446-519 | What one observation does to the whole table, without the functions that compute it: the number goes up by one; a success stores averages v with 4v <= 3p + s < 4v + 4 of the live record's value p and the sample s, itself given by its bounds, except that download shards leave both metrics alone; failures count, cool down by the table of seconds and reset the metrics; a mismatch quarantines for six hours; other outcomes and other records change nothing. |
| `CdnHealthTraces.AverageBetween` | CacheServer/RustCacheServer/src/cdn_history.rs:840-844 | The integer moving average of samples lies between two of them. |
| `CdnHealthTraces.RunFollows` | CacheServer/RustCacheServer/src/cdn_history.rs:446-519 | In every reachable table, from any start, every record is determined by what happened to it (a record found in the file starts with its values there): its averages by the samples since its last reset, its failures and cooldown by the failures since its last success, its quarantine by the last mismatch since then, its outcome, time and number by the last event. |
| `CdnHealthTraces.StoredMetricsAreBetweenSamples` | CacheServer/RustCacheServer/src/cdn_history.rs:446-519 | From any start, each stored metric lies between the smallest and the largest sample since the record's last reset, a value found in the file counting as a sample; there is none exactly when there are no samples. |
| `CdnHealthSurvival.RunIsNumbered` | CacheServer/RustCacheServer/src/cdn_history.rs:451-453 | Over every run no record carries a number above the table's sequence number. |
| `CdnHealthSurvival.LastHostStays` | CacheServer/RustCacheServer/src/cdn_history.rs:446-519 | After every run with a clock that does not go back, the host of the last event is in the table exactly when there was room, an older entry or a smaller key of the same second. |
| `CdnHealthSurvival.LastRepresentationStays` | CacheServer/RustCacheServer/src/cdn_history.rs:446-519 | The same of the representation of the last event, which is always among the three its digest keeps. |
| `CdnHealthSurvival.CrowdedSecondLosesLast` | CacheServer/RustCacheServer/src/cdn_history.rs:872-882 | 257 origins observed in one second, the least of them last, lose the one just recorded. |
| `CdnHealthSurvival.HostIsLostAtOnce` | CacheServer/RustCacheServer/src/cdn_history.rs:872-882 | Such a run from the empty table exists. |
| `CdnHealthSurvival.RecordedHostStays` | CacheServer/RustCacheServer/src/cdn_history.rs:865-882 | The host just updated leaves the table at once exactly when the table overflows and it is the least key among entries all stamped with this second. |
| `CdnHealthSurvival.RecordedRepresentationStays` | CacheServer/RustCacheServer/src/cdn_history.rs:446-519 | The origin just observed is always among the three its digest keeps, and leaves at once exactly when the table overflows and it is the least key among entries all stamped with this second. |
| `CdnHealthClock.UnsoundIsLost` | CacheServer/RustCacheServer/src/cdn_history.rs:934-945 | A record outside those limits does not survive loading. |
| `CdnHealthRuns.MapKeyInjective` | CacheServer/RustCacheServer/src/cdn_history.rs:742-744 | For 64-digit hexadecimal digests two table keys are equal exactly when digests and origins are. |
| `CdnHealthTable.SortedKeys` | CacheServer/RustCacheServer/src/cdn_history.rs:873-878 | Collecting and sorting the keys yields the one ascending list. |
| `CdnHealthTable.DropOldest` | CacheServer/RustCacheServer/src/cdn_history.rs:872-897 | The removal loop leaves exactly the table without its oldest entries beyond the limit. |
| `CdnHealthTable.HealthTable.PruneAt` | CacheServer/RustCacheServer/src/cdn_history.rs:865-897 | The in-place prune equals the value model. |
| `CdnHealthTable.HealthTable.PruneTopK` | CacheServer/RustCacheServer/src/cdn_history.rs:852-863 | The in-place top-k equals the value model. |
| `CdnHealthTable.HealthTable.RecordAt` | CacheServer/RustCacheServer/src/cdn_history.rs:446-517 | The in-place update for one observation equals the value model; a URL without an origin changes nothing. |
| `CdnHealthTable.HealthTable.ValidateLoadedState` | CacheServer/RustCacheServer/src/cdn_history.rs:927-957 | The in-place validation equals the value model for the order in which it visits the digests. |
| `CdnRanking.RequestCandidates` | CacheServer/RustCacheServer/src/cdn_history.rs:656-663 | The filtering loop returns the de-duplicated list, starting with the primary URL. |
| `CdnRanking.DistinctMeaning` | CacheServer/RustCacheServer/src/cdn_history.rs:656-663 | De-duplication keeps every URL once, at its first position, in the original order. |
| `CdnRanking.ComparatorMeaning` | CacheServer/RustCacheServer/src/cdn_history.rs:626-648 | The comparator prefers a lower tier, then higher known throughput, then lower known latency, then a more recent success, then the earlier position. |
| `CdnRanking.EntriesTotal` | CacheServer/RustCacheServer/src/cdn_history.rs:626-648 | On the entries of one request the comparator is a strict total order. |
| `CdnRanking.RankingIsTheSortedOrder` | CacheServer/RustCacheServer/src/cdn_history.rs:306-368 | The ranked head is the only arrangement of the first 32 candidates that ascends under the comparator. |
| `CdnRanking.RankingPermutes` | CacheServer/RustCacheServer/src/cdn_history.rs:306-368 | The ranking is a permutation of the de-duplicated list, with everything from position 32 on in place. |
| `CdnRanking.EntryMeaning` | CacheServer/RustCacheServer/src/cdn_history.rs:318-361 | The entry of a URL is what the tables say: its standing, the metrics of the record that speaks for it (the representation's after a success unless the host failed since, else the host's after a success), the time and number of the representation's last success. |
| `CdnRanking.BlockedComeLast` | CacheServer/RustCacheServer/src/cdn_history.rs:306-368 | Among the first 32, whatever is cooling or quarantined follows everything that is not, and healthy URLs come first. |
| `CdnRanking.RankingInOrder` | CacheServer/RustCacheServer/src/cdn_history.rs:306-368 | Of any two of the first 32: the better standing first, then the higher throughput, then the lower latency, each read from the host or representation table, then the later success by time and number, then the earlier place in the request. |
| `CdnRanking.RankRequest` | CacheServer/RustCacheServer/src/cdn_history.rs:306-368 | The operation on the table prunes it and returns that ranking of the pruned table. |
| `CdnFanout.Select` | CacheServer/RustCacheServer/src/cdn_history.rs:380-409 | The selection loop with its early exit computes the greedy selection. |
| `CdnFanout.SelectedMeaning` | CacheServer/RustCacheServer/src/cdn_history.rs:380-409 | The selection has at most three positions, ascending, eligible and of distinct origins, and passes over an eligible one only because three were found before it or its origin was. |
| `CdnFanout.EligibleMeaning` | CacheServer/RustCacheServer/src/cdn_history.rs:385-403 | Eligible is a URL whose origin is known and whose host and representation, as the tables have them, neither block it nor are known to refuse ranges. |
| `CdnFanout.OrderPermutes` | CacheServer/RustCacheServer/src/cdn_history.rs:415-428 | The new order lists every position exactly once. |
| `CdnFanout.FanOutPermutes` | CacheServer/RustCacheServer/src/cdn_history.rs:370-429 | Fan-out is a permutation of the ranking. |
| `CdnFanout.FanOutMeaning` | CacheServer/RustCacheServer/src/cdn_history.rs:370-429 | With fewer than two eligible origins nothing moves; otherwise the first k URLs are eligible and of distinct origins, the others keep their order and positions from 32 on are unchanged. |
| `CdnFanout.EachLeadsOnce` | CacheServer/RustCacheServer/src/cdn_history.rs:415-421 | Over any k consecutive chunk indexes each selected URL leads exactly once. |
| `CdnFanout.LeadersAre` | CacheServer/RustCacheServer/src/cdn_history.rs:415-421 | Position i of chunk c holds the selected URL number c + i modulo their number. |
| `CdnFanout.RangeRequestPermutes` | CacheServer/RustCacheServer/src/cdn_history.rs:370-429 | A range request answers with every candidate once, whatever the tables seen under its two locks. |
| `CdnFanout.RangeRequestLeaders` | CacheServer/RustCacheServer/src/cdn_history.rs:370-429 | Of a whole range request: with fewer than two eligible origins the ranking is returned as it is; otherwise the first k URLs are not cooling, quarantined or known to refuse ranges, and are of distinct origins. |
| `CdnFanout.RangeRequestsTakeTurns` | CacheServer/RustCacheServer/src/cdn_history.rs:415-421 | Of whole range requests: over any k consecutive chunk indexes each of those URLs leads exactly once. |
| `CdnFanout.RangeRequestTail` | CacheServer/RustCacheServer/src/cdn_history.rs:370-429 | Of a whole range request: positions from 32 on hold the candidates they held in the request. |
| `CdnFanout.FanOutRanked` | CacheServer/RustCacheServer/src/cdn_history.rs:380-429 | The loops over the selection and the rest compute that result. |
| `CdnEncoding.HashedBytesInjective` | CacheServer/RustCacheServer/src/cdn_history.rs:665-725 | Two eligible requests feed the same bytes to the hash exactly when they agree on content id, media kind, stream id, codecs, dimensions, size, bandwidth and duration. |
| `CdnEncoding.BigEndianMeaning` | CacheServer/RustCacheServer/src/cdn_history.rs:692-725 | Numbers and lengths are hashed as bytes with the most significant first. |
| `CdnEncoding.DigestExists` | CacheServer/RustCacheServer/src/cdn_history.rs:665-675 | A request has a digest exactly when it is no FLV segment, its content id has 1 to 256 bytes and its codecs at most 128. |
| `CdnEncoding.HexMeaning` | CacheServer/RustCacheServer/src/cdn_history.rs:1038-1046 | A digest shows the high and then the low digit of each byte in lower case. |
| `CdnEncoding.DigestsSeparateRequests` | CacheServer/RustCacheServer/src/cdn_history.rs:665-690 | Digests are 64 hexadecimal digits, and equal exactly when those fields agree or the hash collides. |
| `CdnEncoding.KeysSeparateRequests` | CacheServer/RustCacheServer/src/cdn_history.rs:742-744 | Without a collision, table keys are equal exactly when requests and origins are. |
| `CredentialBindings.StepKeepsInv` | CacheServer/RustCacheServer/src/bilibili_credential_bindings.rs:134-156 | Every step of any call keeps the invariant: one lock holder, a file equal to the committed version, every result justified. |
| `CredentialBindings.SuccessfulReplacementsAreSerial` | CacheServer/RustCacheServer/src/bilibili_credential_bindings.rs:134-156 | In every interleaving, with failures and crashes, the file is what the successful replacements give one at a time in lock order, and each found the value it expected. |
| `CredentialBindings.ResultMeaning` | CacheServer/RustCacheServer/src/bilibili_credential_bindings.rs:134-156 | A success is exactly one commit between call and return; an error is none; "changed" means the value differed from the expected one at some moment of the call. |
| `CredentialBindings.LookupSeesCommittedVersion` | CacheServer/RustCacheServer/src/bilibili_credential_bindings.rs:107-132 | An unlocked lookup returns the value of some version committed between its call and its answer. |
| `CredentialBindings.LastCommitWins` | CacheServer/RustCacheServer/src/bilibili_credential_bindings.rs:148-154 | A profile holds the binding of the last commit that named it. |
| `CredentialBindings.OthersUntouched` | CacheServer/RustCacheServer/src/bilibili_credential_bindings.rs:148-154 | A profile no commit named is as it was. |
| `CredentialBindings.CommitsFollowRealTime` | CacheServer/RustCacheServer/src/bilibili_credential_bindings.rs:134-156 | A call begun after another committed commits after it. |
| `BindingsProgress.ReplacementCanReturn` | CacheServer/RustCacheServer/src/bilibili_credential_bindings.rs:134-156 | No replacement gets stuck: it can return without a failure, by its own steps after whoever holds the lock let go, and then ends as the file at that moment decides. |
| `BindingsProgress.FreeCallEnds` | CacheServer/RustCacheServer/src/bilibili_credential_bindings.rs:134-156 | With the lock free, its own steps end in success with exactly its profile rewritten if the file is readable and holds what was expected, in "changed" if it holds something else, and in an error if it is unreadable. |
| `BindingsProgress.LookupAnswers` | CacheServer/RustCacheServer/src/bilibili_credential_bindings.rs:107-132 | A lookup answers with what the file holds and changes nothing. |
| `CredentialBindings.AcquireLock` | CacheServer/RustCacheServer/src/bilibili_credential_bindings.rs:80-96 | The retry loop ends within 200 tries, holds the lock only if its last try got it before the deadline, and gives up only on an error or a passed deadline. |
| `CredentialBindings.BindingStore.Replace` | CacheServer/RustCacheServer/src/bilibili_credential_bindings.rs:134-156 | A single call succeeds exactly when locked, readable, writable and as expected, and then changes only its own profile; otherwise nothing changes. |
| `CredentialBindings.BindingStore.Lookup` | CacheServer/RustCacheServer/src/bilibili_credential_bindings.rs:107-122 | Missing, matching or mismatched, as the file says. |
| `ProcessGroup.StepKeepsInv` | scripts/ui-e2e.py:222-259 | Every step of any stopping thread or of the kernel keeps the invariant. |
| `ProcessGroup.SignalsReachOnlyTheOwnedGroup` | scripts/ui-e2e.py:198-259 | In every interleaving of any number of stops, repeated and failed ones included, every signal is sent while the leader is unreaped and reaches the owned group, never a reused id. |
| `ProcessGroup.NoSignalAfterReaping` | scripts/ui-e2e.py:247-259 | After the reaping nothing is sent again, whoever tries. |
| `ProcessGroup.ReapedOnlyAfterBothSignals` | scripts/ui-e2e.py:242-248 | The leader is reaped only after one thread had sent SIGTERM and then SIGKILL. |
| `ProcessGroup.StoppedMeansReaped` | scripts/ui-e2e.py:222-259 | A stop that returns normally leaves the leader reaped and its return code stored. |
| `ProcessGroup.OneStopAtATime` | scripts/ui-e2e.py:468-475 | At most one thread is inside the stop. |
| `ProcessProgress.StopCanSucceed` | scripts/ui-e2e.py:210-247 | A stop that has not failed can be carried through to a normal return, by steps of its thread, of the one inside the stop and the exit of the leader, which is then reaped. |
| `ProcessGroup.BoundedLog.Drain` | scripts/ui-e2e.py:450-471 | The log is the first max bytes of the output, and a stop follows exactly when the output exceeds them. |
| `StageLog.FedHolds` | scripts/ci-stage.py:53-60 | One more chunk leaves the first 64 KiB and the last 448 KiB of the rest of the longer output. |
| `StageLog.ChunkingDoesNotMatter` | scripts/ci-stage.py:47-60 | However the output is cut into chunks, the buffers end the same. |
| `StageLog.RetainedMeaning` | scripts/ci-stage.py:47-60 | The retained bytes are the whole output when it fits, and otherwise its two ends. |
| `StageLog.HeadTail.Feed` | scripts/ci-stage.py:53-60 | The in-place update equals the value model. |
| `StageLog.RunStage` | scripts/ci-stage.py:208-288 | The log written is the retained part of exactly what was read; the record reports what ended the loop: exit code 128 and the signal, 125 for an exception or doubtful cleanup, 124 after the deadline, else the command's own or 128 and the signal that killed it; the latest exception; the cleanup; and it passes exactly after a clean exit with zero. |
| `StageLog.AcceptedMeaning` | scripts/ci-stage.py:316-344 | The checks of one record, written out over its keys. |
| `StageLog.BuiltRecordAccepted` | scripts/ci-stage.py:316-344 | A record built from retained output, as written to its file, passes every check of keys, types, counters, truncation and success exactly when its exception name is an identifier of at most 64 characters, or absent. |
| `StageLog.PassedMeaning` | scripts/ci-stage.py:267-288 | A stage passes exactly when its command exited with zero, in time, undisturbed and with verified cleanup. |
| `StageLog.Summarize` | scripts/ci-stage.py:299-358 | The summary fails exactly when some file is irregular or too big, some present record is bad, or everything together is too big; otherwise it lists every stage in order. |
| `StageLog.StageLeavesGoodFiles` | scripts/ci-stage.py:263-289 | What a stage leaves behind is never the reason for a refusal, if its record fits its file and its exception has a decent name. |
| `LibraryPagination.Collect` | Sources/TVOSNetPlayerCacheClient/GRPCCacheControlClient.swift:987-1025 | For any source, even a cyclic or endless one: at most max(1, maxPages) fetches, no token twice; success is the in-order concatenation within maxItems, complete unless partial results are allowed; each error says what was met. |
| `LibraryPagination.ListingIsCollected` | Sources/TVOSNetPlayerCacheClient/GRPCCacheControlClient.swift:987-1025 | A finite listing that fits the limits is always returned, complete and in order. |
| `DnsLabel.TruncateUtf8` | CacheServer/RustCacheServer/src/bonjour.rs:258-276 | The longest prefix of whole characters within the limit. |
| `DnsLabel.DnsLabelComponent` | CacheServer/RustCacheServer/src/bonjour.rs:212-237 | The loop computes the runs of letters and digits in lower case, joined by single hyphens and cut to 63 bytes. |
| `DnsLabel.ComponentClean` | CacheServer/RustCacheServer/src/bonjour.rs:212-237 | A component is non-empty, at most 63 bytes of a-z, 0-9 and hyphen, with no leading, trailing or doubled hyphen. |
| `DnsLabel.ComponentExists` | CacheServer/RustCacheServer/src/bonjour.rs:212-230 | There is a component exactly when there is a letter or a digit. |
| `DnsLabel.CleanIsFixed` | CacheServer/RustCacheServer/src/bonjour.rs:212-237 | Every label of that shape is left as it is. |
| `DnsLabel.ComponentIdempotent` | CacheServer/RustCacheServer/src/bonjour.rs:212-237 | Normalising twice is normalising once. |
| `DnsLabel.ServiceHostLabel` | CacheServer/RustCacheServer/src/bonjour.rs:176-210 | For every server id and host name the host label has that shape and is a fixed point of the normalisation. |
| `DnsLabel.HostLabelIsValid` | CacheServer/RustCacheServer/src/bonjour.rs:176-196 | The same of the value model, and its layout: the server's label cut to what is left, a hyphen, then the host's label cut to 24 bytes, or the server's label alone. |
| `DnsLabel.FirstLabelIs` | CacheServer/RustCacheServer/src/bonjour.rs:202-210 | The host's label is taken from what stands before the first dot of its name. |

## Left out

- SwiftUI views, app entry points, gRPC transport and protobuf conversions: user interface and plumbing.
- URL and HTTP handling, login, provider adapters, ffmpeg and simulator control: foreign calls or one-branch mappings.
- File permissions, fsync and JSON text: a write is an atomic replacement or a failure; JSON is modelled as values where its types are checked.
- Cancellation of asynchronous tasks and a panic inside a blocking write: steps of the writer protocol run to the next lock boundary or fail as a write failure.
- WriterProtocol.NoUpdateIsLost: says nothing once the sequence number has saturated at the largest 64-bit value, because equal sequence numbers then no longer identify versions; the throttle of one second between writes is not timed.
- WriterProgress.ShutdownCanReturn: shows a way to the end from every state; that the scheduler takes it, with threads that never starve, is not modelled.
- WriterProtocol.ShutdownSavesEverything: is about a shutdown whose write succeeds; the source discards the result of that write, so the caller of shutdown_and_wait cannot see whether it did.
- WriterProtocol.QuietSystemIsSaved: speaks of observations; a ranking prunes the table without a new sequence number and is no step of this protocol, so the file and the table may differ by expired entries.
- CdnFanout.FanOutRanked: takes the table seen under the second lock as given, because other threads may change it between the two locks.
- CdnHealthTable.HealthTable.PruneAt: the order in which a set is visited is arbitrary and the sort stands for the library's stable sort over keys in byte order.
- ResolutionCreate.SizeNeverOverflows: takes the sizes of the Rust types involved to be at most 65,536 bytes each.
- ResolutionRuns.RunKeepsOk: takes every UUID drawn to be new, as version 4 UUIDs are taken to be.
- CredentialBindings.SuccessfulReplacementsAreSerial: is about cooperating processes that respect the lock file.
- ProcessGroup.SignalsReachOnlyTheOwnedGroup: assumes no other code in the process reaps the child, which the source reports as an error but cannot prevent.
- ProcessProgress.StopCanSucceed: shows a way to the end in which nothing fails; the deadlines of the grace period and the waits are not timed.
- ProcessGroup.StepKeepsInv: does not time the grace period or the observation of the group; a step may fail at any time.
- StageLog.RunStage: takes the deadline, the selector and the signals as a script of what the loop meets, in that order.
- StageLog.Summarize: takes the size of its own JSON as a parameter and leaves out the cache outcomes and the Markdown lines.
- DnsLabel.ServiceHostLabel: removal of Unicode white space around the host name is a parameter, and the service instance name is left out.
