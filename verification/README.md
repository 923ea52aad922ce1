# neofs-mount: a verified model of its caches, listings and mutation protocols

neofs-mount shows the objects of NeoFS containers as files. Objects are immutable and found by their attributes, so
almost everything a file system needs is built on top of them in memory or on the local disk. This project models the
parts where that is hardest to get right and proves what they are for:

- **Range reads** (`ChunkCache`, `RangeWindows`, `RangeFileHandle`, `RangeProtocol`, `RangeWaiters`, `RangePrefetch`,
  `RangeOutcomes`, `RangeRecency`, `RangeProgress`). A large object is read through at most eight cached windows that
  grow, overlap, are fetched once at a time and are evicted least recently used first. The class runs the loop of
  `Read` with nothing else in flight; the protocol interleaves any readers, background fetches, failures,
  cancellations and the closing of the file, one critical section at a time.
- **Directory listings** (`Paths`, `Listing`, `ListingNames`, `ListingIndex`, `ListingTrie`, `FuseListing`,
  `FuseNames`). One scan of a container is listed in three ways: by a mutable trie, by a linear scan and by the
  mounted file system. The trie is proved against an independent description of a listing, and the other two are
  compared with it.
- **The scan cache** (`ScanProtocol`, `ScanCache`). One caller scans a container while the others wait; results expire
  and can be invalidated at any moment.
- **The blob cache** (`BlobCache`, `BlobFiles`, `BlobDisk`, `BlobProtocol`, `BlobFlights`, `BlobContents`,
  `BlobServing`, `BlobOrder`, `BlobProgress`). Files on disk, a byte count and a list of keys, first with one call at
  a time, then with every file operation and critical section interleaved: what is counted, who fetches and waits, and
  what the files hold when fetches write through open descriptors while others rename, remove and reopen their paths.
- **Range arithmetic** (`ObjectRanges`, `Hydration`). Splitting a range and putting its parts together in any order of
  arrival; filling a placeholder page by page and acknowledging the same bytes.
- **Mutations over immutable objects** (`ObjectStore`, `Uploads`, `UploadProtocol`, `Renames`, `RecursiveDelete`).
  Upload on close, rename and recursive delete, with stale scans and failures at every request.

A network, disk or hash operation is a parameter that says how it turned out; a successful fetch brings exactly the
bytes asked for. Fields named as history in a protocol state are recorded by the steps and read by none of them.

## What the proofs found

- The trie does not match the linear scan's first-wins rule, although a comment says so (internal/neofs/client.go:139):
  a directory beats a file at the same path whatever the order. `Listing.TrieMatchesLinearEverywhere` gives the exact
  condition under which the two agree for every prefix, and `Listing.DirectoryIsListedAsFile` two objects for which they
  do not.
- A chunk handle that is closed while a reader waits strands that reader until its context is cancelled, and nothing
  else does (`RangeWaiters.StrandedIff`, `RangeWaiters.StrandedIsReachable`). The blob cache strands a waiter exactly
  when an eviction or a store takes the entry away from the running fetch it waits for (`BlobFlights.StrandedIff`,
  `BlobFlights.StrandedIsReachable`).
- A scan follower may get neither entries nor an error, or entries that expired before its leader began
  (`ScanProtocol.EmptyHandedFollower`, `ScanProtocol.ExpiredFollower`).
- Evicting or overwriting a blob entry whose fetch still runs lets bytes be counted twice. The count is exact as long
  as no step meets the guard of one of three branches, and from then on it is not (`BlobProtocol.ExactUnlessLeaked`).
  Leaked bytes are never recovered, and once they exceed the limit every eviction empties the cache
  (`BlobProtocol.LeakIsReachable`, `BlobProtocol.OverLeakedStaysEmpty`). Only keys from which a running fetch was taken
  ever leak, and every other key is served right (`BlobServing.OnlyOrphansLeak`, `BlobServing.RunClean`).
- Two fetches of one such key share the temporary path, and the one that ends first moves whatever the other has there
  into place. A hit may then pass its size check and serve too little (`BlobContents.HitServesTooLittle`). It serves
  the payload exactly when the size is right and every byte that is not zero was written since the file was last
  truncated; a byte that was not is zero, and no other wrong byte is ever served (`BlobContents.HitServesIff`,
  `BlobContents.FilesHoldTheirPayload`).
- `StoreFromPath` over a complete entry deletes the file it has just moved in.
- A hydration that reaches the end of the file is one write however long it is; the 4 MiB limit binds only before that.
- `AckRange` and hydration mean the same bytes except for requests that begin a page or more before the file, or past
  its end within its last page.
- The documents say that deleting and overwriting go by FilePath; the code also goes by Key. An object with two
  different names is therefore lost under one when the other is overwritten (`Uploads.SecondNameIsLost`); uploads can
  leave a path without an object exactly when every object there has another name under which an upload can put, that
  is, a path of proper file names whose last one is not an editor's temporary file
  (`UploadProtocol.EmptiesIffAllHaveOtherNames`). A rename whose source and destination match one object loses it
  (`Renames.OverlapIsLost`, `Renames.ClearedLosesOverlap`).

## Model

| member | source | states |
|---|---|---|
| `RangeProtocol.ReadsAreExact` | internal/fs/tree.go:1279-1332 | under every interleaving, a `Read` that succeeds returned exactly payload[off..min(off+len, size)] |
| `RangeProtocol.ChunksAreExact` | internal/fs/tree.go:1564-1588 | under every interleaving, a resident chunk starts at a multiple of 512 KiB below size and holds exactly the payload bytes of a window of legal length |
| `RangeProtocol.MemoryIsBounded` | internal/fs/tree.go:1590-1606 | in every reachable state at most 8 chunks and 32 MiB are resident |
| `RangeProtocol.TouchesAreDistinct` | internal/fs/tree.go:1559-1562 | in every reachable state no two entries were touched at once, so lookup and victim choice never depend on the order of the map |
| `RangeRecency.EvictionDropsLeastRecent` | internal/fs/tree.go:1559-1606 | in every run, each chunk that an eviction keeps, though it could have gone, was used after the evicted one was for the last time |
| `RangeRecency.NewerWasUsedLater` | internal/fs/tree.go:1559-1562 | in every reachable state, of two chunks the one with the higher number was used after the last use of the other |
| `RangeProgress.NeverStuck` | internal/fs/tree.go:1279-1458 | in every reachable state a reader or background fetch is done, can go on without anything failing, or waits on a channel that is still open |
| `RangeProtocol.OneFetchPerStart` | internal/fs/tree.go:1407-1449 | before the file is closed, two processes never fetch the same start at once |
| `RangeWaiters.WaitersAreWoken` | internal/fs/tree.go:1407-1449 | in every run, before and after the file is closed, a waiter that is not stranded has been woken, or its entry has a running fetch whose end, good or bad, wakes it |
| `RangeWaiters.StrandedIff` | internal/fs/tree.go:1407-1426 | in every run a waiter is stranded exactly when the file was closed while it waited |
| `RangeWaiters.StrandedIsReachable` | internal/fs/tree.go:1401-1426 | a run in which a second reader waits for the first one's fetch and is stranded by the closing of the file |
| `RangeWaiters.StrandedBy` | internal/fs/tree.go:1718-1721 | a step strands a waiter exactly when it closes the file under its registered channel |
| `RangeWaiters.RunAwaited` | internal/fs/tree.go:1401-1458 | in every reachable state a registered channel is open, its entry is being fetched, and a running process will report to that entry |
| `RangeProtocol.AtMostFourWindows` | internal/fs/tree.go:1496-1532 | before the file is closed, between removals of a start its chunk costs at most four windows, and after four it is as long as it can get |
| `RangeProtocol.PinnedChunksStay` | internal/fs/tree.go:1590-1606 | only its own failed fetch or the closing of the file removes the chunk at offset 0 or the one at the 512 KiB block that holds the file's last byte |
| `RangeProtocol.OnlyEndsArePinned` | internal/fs/tree.go:1436-1440 | in every reachable state those two chunks are kept from eviction and no other is |
| `RangeWaiters.ReleaseStrandsWaiters` | internal/fs/tree.go:1718-1721 | closing the file, at any time, leaves every waiter that has not been woken without anyone to wake it |
| `RangeWaiters.StrandedStays` | internal/fs/tree.go:1407-1426 | no step but its own cancellation moves a stranded waiter |
| `RangeProtocol.RunInv` | internal/fs/tree.go:1279-1636 | every reachable state keeps the cache, every reader's progress and every pending request valid |
| `RangeProtocol.RunFlight` | internal/fs/tree.go:1401-1458 | before the file is closed, an entry is marked as fetching exactly while one process fetches it, with its waiters registered on it |
| `RangeFileHandle.Handle.Read` | internal/fs/tree.go:1279-1332 | with nothing else in flight, `Read` ends in at most one round and one request per 512 KiB block; it succeeds exactly when no request it made failed, with exactly the requested payload bytes, and otherwise reports the failure of the last request; it makes none exactly when the chunks at hand reach far enough at every position it comes to; a cancelled request is reported as EINTR, and a read that succeeds leaves the chunks at both ends of the file in place |
| `RangeFileHandle.Handle.ReadAsked` | internal/fs/tree.go:1297-1332 | the same for the part that asks for bytes, with the error number of a failed request |
| `RangeFileHandle.Handle.Fill` | internal/fs/tree.go:1297-1327 | the loop over [off, end) overwrites exactly the requested bytes, counts rounds and requests, and fails exactly with the last request it made |
| `RangeFileHandle.Handle.EnsureAt` | internal/fs/tree.go:1297-1310 | lookup at the position then finds a chunk that reaches the end of the read or a 512 KiB boundary; a request is made exactly when the chunk found before did not reach far enough, and only it can fail |
| `RangeFileHandle.Handle.MeetPlan` | internal/fs/tree.go:1298-1310 | the planned request is met like any other: nothing is asked for if it is satisfied, else the outcome is that of one request |
| `RangeFileHandle.Handle.CopyAt` | internal/fs/tree.go:1312-1326 | touches the chunk found and copies exactly the payload bytes it holds of the request |
| `RangeFileHandle.Handle.CopyRound` | internal/fs/tree.go:1312-1326 | so the buffer goes from holding [off, pos) to holding [off, next) |
| `RangeFileHandle.Handle.EnsureChunk` | internal/fs/tree.go:1401-1458 | a satisfied request is touched and cannot fail; another one makes exactly one request and leaves one arrived window, or on its failure no entry; when it succeeds, the chunk is the one used last and the chunks at the head and at the last block of the file are still there |
| `RangeFileHandle.Handle.FetchChunk` | internal/fs/tree.go:1428-1449 | a placeholder is entered, one window asked for, and the entry filled or removed |
| `RangeFileHandle.Handle.FinishChunkFetch` | internal/fs/tree.go:1564-1588 | fills or forgets the entry and evicts |
| `RangeFileHandle.Handle.EvictChunks` | internal/fs/tree.go:1590-1606 | what is left after the eviction loop, as a relation with one solution |
| `RangeFileHandle.Handle.LookupChunk` | internal/fs/tree.go:1534-1557 | finds the most recently touched chunk that covers an offset, whatever the order of the map |
| `RangeFileHandle.Handle.TouchChunk` | internal/fs/tree.go:1559-1562 | gives one chunk the next sequence number |
| `RangeFileHandle.Handle.QueueLookahead` | internal/fs/tree.go:1460-1487 | every queued window is one a chunk may have |
| `RangeFileHandle.Handle.NoteRead` | internal/fs/tree.go:1724-1757 | only the first read from offset 0 of a file above 8 MiB queues its last 512 KiB block |
| `RangeFileHandle.Handle.RunPrefetch` | internal/fs/tree.go:1612-1636 | a queued window that is there already changes nothing, else one request is made and it is met or its entry is gone |
| `RangeFileHandle.Handle.Release` | internal/fs/tree.go:1697-1722 | closing forgets every chunk |
| `ChunkCache.EvictedToUnique` | internal/fs/tree.go:1590-1606 | victims do not depend on the order of the map: eviction has one outcome |
| `ChunkCache.EvictBoundsResident` | internal/fs/tree.go:1590-1606 | whatever is in flight, at most 8 chunks stay resident |
| `ChunkCache.NewestSurvives` | internal/fs/tree.go:1564-1606 | with nothing else in flight the chunk just fetched outlives the eviction |
| `ChunkCache.HitUnique` | internal/fs/tree.go:1543-1557 | at most one chunk is the latest touched that covers an offset |
| `ChunkCache.PlanIsValid` | internal/fs/tree.go:1359-1399 | every plan asks for a window a chunk may have |
| `ChunkCache.PlanAdvances` | internal/fs/tree.go:1359-1399 | meeting the planned request covers the position and reaches the end of the read or a 512 KiB boundary |
| `ChunkCache.FetchLengthFits` | internal/fs/tree.go:1516-1532 | one fetch brings a legal length that reaches what was needed |
| `ChunkCache.RefetchGrows` | internal/fs/tree.go:1496-1532 | a refetch is strictly longer and at least doubles up to the largest window |
| `ChunkCache.EnsuredIsHit` | internal/fs/tree.go:1297-1320 | after the planned request is met, lookup at the position finds just that chunk |
| `ChunkCache.PlanSatisfied` | internal/fs/tree.go:1359-1399 | the planned request is met already exactly when lookup finds a chunk that reaches as far as the read could ask it to |
| `ChunkCache.UnaskedKeepsWarm` | internal/fs/tree.go:1297-1327 | a round without a request leaves the rest of the read needing requests exactly as before |
| `ChunkCache.LookaheadValid` | internal/fs/tree.go:1460-1487 | the windows queued behind a fetch are windows a chunk may have |
| `RangeWindows.PlanMeans` | internal/fs/tree.go:1359-1399 | which window is asked for next: the covering chunk up to what the read needs, else the short chunk of the same 4 MiB up to all it can hold, else the 512 KiB block of the position |
| `RangeWindows.FetchLengthLeast` | internal/fs/tree.go:1516-1532 | no legal window that reaches what is needed is shorter than the one requested |
| `RangeWindows.RefetchLeast` | internal/fs/tree.go:1496-1532 | nor is any that also doubles the chunk or fills its 4 MiB |
| `RangeWindows.LookaheadCovers` | internal/fs/tree.go:1460-1487 | behind a window of 4 MiB, and no other, exactly the bytes of the next 8 MiB of the file are fetched ahead |
| `RangeWindows.TailIsLastBlock` | internal/fs/tree.go:1352-1357 | the tail window begins at the 512 KiB block that holds the last byte |
| `RangeWindows.EvictionLeavesEight` | internal/fs/tree.go:1590-1606 | eviction goes on while more than eight entries are there and one can go, and no longer |
| `RangePrefetch.FirstReadWarmsTail` | internal/fs/tree.go:1724-1757 | under every interleaving, beginning a read starts a background fetch exactly for the first read, from offset 0, of a file above 8 MiB, and then of its last block |
| `RangePrefetch.FullWindowIsFollowed` | internal/fs/tree.go:1445-1487 | a fetch that ends well starts one exactly if a reader made it and got 4 MiB with more of the file to come, and then of the next 8 MiB |
| `RangePrefetch.OthersStartNone` | internal/fs/tree.go:1608-1636 | no other step starts one |
| `RangeOutcomes.ReadFails` | internal/fs/tree.go:1297-1310 | under every interleaving a read fails exactly when the request it made itself fails or it is cancelled while it waits for another's |
| `RangeOutcomes.BackgroundGoesOn` | internal/fs/tree.go:1478-1486 | a background fetch ends only once it has seen to all its targets, whatever fails meanwhile |
| `RangeOutcomes.TargetsInOrder` | internal/fs/tree.go:1612-1636 | it takes them in order and passes over one exactly if its entry is being fetched or reaches far enough |
| `RangeOutcomes.WokenAsksAgain` | internal/fs/tree.go:1412-1424 | a waiter that is woken asks again for what it waited for |
| `ListingNames.ListedAtItsPath` | internal/neofs/client.go:71-185 | an object is named by the first of FilePath, Key, Name and FileName that is not empty, one leading slash aside; it is listed in each directory above that path as the next directory, in the last one as itself with its own ID and size, and nowhere else |
| `ListingNames.LaterNamesDoNotCount` | internal/neofs/client.go:71-87 | the names after that one change no listing, of the trie or of the linear scan |
| `ListingNames.ListedLinearly` | internal/neofs/client.go:735-778 | the linear scan lists the object where the trie does |
| `ListingNames.PrefixNames` | internal/neofs/client.go:89-96 | a directory is asked for by its segments, with or without a slash at the end |
| `Listing.TrieMatchesLinearEverywhere` | internal/neofs/client.go:145-185 | for clean paths the two listings agree for every clean prefix exactly when no object is scanned ahead of everything at or under its path and has one beneath it later |
| `Listing.DirectoryIsListedAsFile` | internal/neofs/client.go:735-778 | two objects, one beneath the other: the trie lists a directory, the linear scan the first object as a file |
| `Listing.TrieMatchesLinear` | internal/neofs/client.go:735-778 | at one prefix they agree in names, order, kind, ID and size exactly when no listed name is first met as a file with something beneath it |
| `Listing.TrieMatchesLinearWithoutAncestors` | internal/neofs/client.go:735-778 | they agree if no object's path is a proper ancestor of a later object's path |
| `Listing.ListEntriesByPrefixLinear` | internal/neofs/client.go:735-778 | the loop over entries with its set of seen names returns the first child of each name, in scan order |
| `Listing.ChildNamesAre` | internal/neofs/client.go:145-185 | the listed names are those at or beneath which some path lies, without duplicates |
| `Listing.ChildNamesInOrder` | internal/neofs/client.go:120-142 | names are listed in the order in which the scan first meets them |
| `Listing.FallbackNeverUsed` | internal/neofs/client.go:699-732 | for all entries and prefixes the linear fallback never changes the trie's answer |
| `Listing.LinearNamesAreListed` | internal/neofs/client.go:735-778 | every name the linear scan lists is one of the trie's |
| `Listing.NormalizeIdempotent` | internal/neofs/client.go:89-96 | normalizing a prefix twice is normalizing it once |
| `Paths.SegmentsConcat` | internal/neofs/client.go:105-110 | the segments of two texts joined by a slash are those of the one and then those of the other |
| `Paths.SegmentsOfName` | internal/neofs/client.go:105-110 | a text without a slash is one segment, or none if it is empty |
| `Paths.PrefixIsSegmentPrefix` | internal/neofs/client.go:146-165 | a path starts with a directory and a slash exactly when its segments start with the directory's |
| `Paths.SplitJoin` | internal/neofs/client.go:105-115 | splitting joined segments gives them back |
| `ListingIndex.IndexListsTheTrie` | internal/neofs/client.go:98-185 | for every scan and directory, inserting all objects and listing gives the names in first-occurrence order, a directory iff some path lies strictly beneath, else the first object there |
| `ListingIndex.InsertRepresents` | internal/neofs/client.go:120-142 | inserting an object keeps: nodes are the paths at or above an object, order is the children's, and a node with something beneath it has no file |
| `ListingIndex.WalkPartial` | internal/neofs/client.go:122-137 | what holds after each segment of an insertion |
| `ListingTrie.ListingTrie.InsertSegments` | internal/neofs/client.go:120-142 | the walk over linked nodes with its in-place updates is the insertion into the index |
| `ListingTrie.ListingTrie.Link` | internal/neofs/client.go:124-132 | a missing child is created, linked and appended to the order, and no other node changes |
| `ListingTrie.ListingTrie.DropFile` | internal/neofs/client.go:134-137 | a directory on the way drops the file parked at its path |
| `ListingTrie.ListingTrie.ParkFile` | internal/neofs/client.go:139-142 | a file is parked unless something is beneath it or already there |
| `ListingTrie.ListingTrie.FindNode` | internal/neofs/client.go:147-165 | the walk down finds the node of a directory exactly when there is one |
| `ListingTrie.ListingTrie.ListImmediateChildren` | internal/neofs/client.go:145-185 | lists what the index lists |
| `ListingTrie.BuildListingTrie` | internal/neofs/client.go:98-118 | a fresh trie that holds exactly the scan |
| `ListingTrie.ListScanned` | internal/neofs/client.go:98-185 | building and listing returns the described listing for every scan and prefix |
| `FuseListing.ListChildren` | internal/fs/tree.go:718-830 | strictly sorted by name, and exactly the children some entry adds, as directories where some entry says so |
| `FuseListing.CollectChildren` | internal/fs/tree.go:747-807 | the map of children after the loop, whatever the order of files and directories |
| `FuseListing.SortNames` | internal/fs/tree.go:809-813 | the map's keys in strict order |
| `FuseListing.MountedMatchesTrie` | internal/fs/tree.go:747-823 | for clean FilePaths without editors' temporary names, the mounted listing and the trie show the same names and kinds |
| `FuseNames.ShownInDirectory` | internal/fs/tree.go:754-799 | for every object and directory: it is shown by the segment of its path that follows the directory's, unless that is empty or a temporary file's name, and as a directory exactly when more follows |
| `FuseNames.ShownByIsFusePath` | internal/fs/tree.go:754-768 | that path is its FilePath, else its Key, and at the root of the container only else its FileName, its Name or its ID |
| `FuseNames.EphemeralIsTemporary` | internal/fs/ephemeral_names.go:8-19 | temporary names are those that begin with `.goutputstream-` or `.gsavefile-` |
| `FuseNames.LessIsLexicographic` | internal/fs/tree.go:809-813 | names are sorted character by character, a name before its extensions |
| `ScanProtocol.OneLeader` | internal/neofs/client.go:412-444 | at most one caller scans a container, and the in-flight record exists exactly while it does |
| `ScanProtocol.ClosedOnceAfterPublishing` | internal/neofs/client.go:432-447 | `done` is closed once, after the result is published and the record removed |
| `ScanProtocol.WaitersAreWoken` | internal/neofs/client.go:412-415 | a waiter's flight is closed or its leader has yet to close it |
| `ScanProtocol.NeverStuck` | internal/neofs/client.go:398-462 | in every reachable state a caller has its answer, can go on, or waits for a leader that can |
| `ScanProtocol.AsksByTheClock` | internal/neofs/client.go:398-411 | freshness is asked by the clock at the time a call begins or asks again |
| `ScanProtocol.FollowerOutcome` | internal/neofs/client.go:415-424 | exactly what a follower gets: a scan at least as late as its own flight's, after a failure one published since or already expired, the flight's error, or nothing because the result was invalidated |
| `ScanProtocol.CachedTriesAreTheirs` | internal/neofs/client.go:432-447 | every cached trie is the trie of its cached entries, which are one whole scan |
| `ScanProtocol.AnswersAreScans` | internal/neofs/client.go:688-733 | whatever a call returns comes from one scan of its container, through the trie unless a listing had to scan twice |
| `ScanProtocol.AnsweredWhileFresh` | internal/neofs/client.go:398-430 | a caller is answered from the cache exactly while what is cached is less than 300 seconds old; otherwise it waits for the running scan or begins one |
| `ScanProtocol.ListingScansAtMostTwice` | internal/neofs/client.go:706-722 | a listing whose scan returned is answered from the cache, or, with nothing cached, scans once more and no further |
| `ScanProtocol.EmptyHandedFollower` | internal/neofs/client.go:415-424 | a reachable state in which a follower of a successful scan got neither entries nor error |
| `ScanProtocol.ExpiredFollower` | internal/neofs/client.go:415-424 | a reachable state in which a follower got entries that expired before its flight began |
| `ScanProtocol.RunInv` | internal/neofs/client.go:381-462 | the invariant behind these, in every reachable state |
| `ScanCache.Cache.ListEntriesByHeadScan` | internal/neofs/client.go:398-462 | one caller at a time: a copy of the cached scan while it is less than 300 seconds old and else of a new one, in an array nobody else holds |
| `ScanCache.Cache.ListEntriesByPrefix` | internal/neofs/client.go:688-733 | the trie listing of the fresh or newly cached scan |
| `ScanCache.Cache.ListCached` | internal/neofs/client.go:698-707 | the cached answer with its fallback is the trie listing |
| `ScanCache.Cache.Publish` | internal/neofs/client.go:432-447 | caches the entries with the trie built for them |
| `ScanCache.Cache.InvalidateContainerScan` | internal/neofs/client.go:381-389 | forgets one container's scan |
| `BlobCache.GetServes` | internal/cache/cache.go:72-158 | with one call at a time: the answer names the key's path and size, the file is there with the key's payload iff it already was or fits the limit, and a failure means a needed fetch failed, also after files were lost |
| `BlobCache.EvictsToLongestPrefix` | internal/cache/cache.go:183-198 | with exact accounting, eviction keeps exactly the longest most-recent prefix that fits |
| `BlobOrder.EvictionDropsLeastRecent` | internal/cache/cache.go:72-263 | over any run of calls, each key that a call's eviction keeps was asked for after each key it drops was for the last time |
| `BlobOrder.OrderIsRecency` | internal/cache/cache.go:72-263 | after any calls each key was asked for later than those behind it in the list |
| `BlobOrder.CallMoves` | internal/cache/cache.go:72-118 | a call puts the key it asks for first if it stays, and leaves the others in their order |
| `BlobOrder.RunOrderIsRecency` | internal/cache/cache.go:80-118 | the same order in every reachable state of every interleaving |
| `BlobOrder.RunDropsLeastRecent` | internal/cache/cache.go:183-198 | and the same of every eviction of every interleaving |
| `BlobCache.EvictedKeeps` | internal/cache/cache.go:183-198 | in every case eviction leaves the tracked bytes within the limit and neither gains nor loses leaked bytes |
| `BlobCache.EvictedDisk` | internal/cache/cache.go:189-196 | eviction removes exactly the files of the complete entries it drops |
| `BlobCache.StoreKeepsItsFile` | internal/cache/cache.go:238-258 | the moved-in file stays iff the key had no complete entry, and otherwise the next request has to fetch |
| `BlobCache.RunSound` | internal/cache/cache.go:72-263 | after any calls and any lost files, the count is the sum of the entry sizes and no cached file is wrong |
| `BlobCache.RemoveFirstKeeps` | internal/cache/cache.go:206-214 | removing a key keeps the others, without duplicates, and their bytes |
| `BlobCache.RecordedKeeps` | internal/cache/cache.go:246-259 | replacing an entry changes the count by exactly the sizes, unless the old one had failed after it was counted |
| `BlobCache.LeakEmptiesCache` | internal/cache/cache.go:183-198 | with more leaked bytes than the limit, eviction empties the cache |
| `BlobFiles.Cache.RemoveFromLRU` | internal/cache/cache.go:206-214 | removes the first occurrence of a key in place |
| `BlobFiles.Cache.BumpLRU` | internal/cache/cache.go:200-204 | moves a key to the front |
| `BlobFiles.Cache.FinishFetch` | internal/cache/cache.go:160-181 | the end of a fetch on whatever entry the key has now |
| `BlobFiles.Cache.EvictIfNeeded` | internal/cache/cache.go:183-198 | the loop reaches the state the lemmas speak of |
| `BlobFiles.Cache.GetOrFetch` | internal/cache/cache.go:72-158 | the whole new state and answer of one call |
| `BlobFiles.Cache.StoreFromPath` | internal/cache/cache.go:222-263 | the whole new state and answer of one call, before its eviction |
| `BlobProtocol.RunBooked` | internal/cache/cache.go:80-118 | under every interleaving the list of keys has no duplicates, agrees with the entries, and the count covers the tracked bytes |
| `BlobProtocol.EvictionBoundsTracked` | internal/cache/cache.go:183-198 | after every eviction of every run the tracked bytes are within the limit |
| `BlobProtocol.StepLeaks` | internal/cache/cache.go:80-263 | every step keeps the books in order and leaks exactly the bytes its guard names: a second success reported to a counted entry, or the replacement of an entry that failed after it was counted |
| `BlobProtocol.LeakIsTheSum` | internal/cache/cache.go:160-263 | in every run the bytes counted for no entry are the sum of what the steps leaked |
| `BlobProtocol.ExactUnlessLeaked` | internal/cache/cache.go:160-263 | in every run the count is the sum of the entry sizes exactly when no step so far met one of those guards |
| `BlobServing.OnlyOrphansLeak` | internal/cache/cache.go:160-263 | only a key from which a running fetch was taken ever leaks |
| `BlobServing.RunExact` | internal/cache/cache.go:160-263 | so the count is exact until some running fetch loses its entry |
| `BlobServing.RunClean` | internal/cache/cache.go:80-214 | under every interleaving, of a key from which no running fetch was ever taken the entry and its file are right, whatever became of other keys |
| `BlobServing.NoTmpLeftBehind` | internal/cache/cache.go:120-152 | in every reachable state a temporary file is being written or about to be moved, or was there when the program began |
| `BlobFlights.OneFetchPerKey` | internal/cache/cache.go:101-117 | a key from which no running fetch was ever taken is fetched by one process at a time |
| `BlobServing.HitServesPayload` | internal/cache/cache.go:82-90 | a hit on such a key that passes its file check serves the key's payload |
| `BlobContents.FilesHoldTheirPayload` | internal/cache/cache.go:120-158 | under every interleaving and for every key, a cached file is no longer than the payload, and each byte is the payload's if it was written since the file was last truncated and zero if not |
| `BlobContents.HitServesIff` | internal/cache/cache.go:82-90 | on any key, a hit that passes its file check serves the payload exactly when the size is the payload's and every byte that is not zero was written since the file was last truncated |
| `BlobContents.HitServesTooLittle` | internal/cache/cache.go:82-154 | a run in which such a hit serves an empty file for a blob of two bytes |
| `BlobContents.WriteHolds` | internal/cache/cache.go:130-131 | a write at a descriptor's own offset keeps this of its file, also past the end of a file that another fetch truncated |
| `BlobContents.RunInv` | internal/cache/cache.go:80-263 | in every reachable state each path leads to a file of its own that holds what was written to it, and the file a fetch has open is at one of its key's two paths or at none |
| `BlobFlights.WaitersAreWoken` | internal/cache/cache.go:101-111 | in every run a waiter that is not stranded has been woken, or a running fetch of its key wakes it when it ends |
| `BlobFlights.StrandedIff` | internal/cache/cache.go:183-198 | in every run a waiter is stranded exactly when an eviction or a store took its own key's entry away from the running fetch while it waited |
| `BlobFlights.StrandedIsReachable` | internal/cache/cache.go:101-198 | a run in which the arrival of one blob evicts the entry for whose fetch a caller waits |
| `BlobFlights.StrandedBy` | internal/cache/cache.go:183-263 | a step strands a waiter exactly when it is such an eviction or store |
| `BlobFlights.StrandedStays` | internal/cache/cache.go:101-111 | no step but its own cancellation moves a stranded waiter |
| `BlobFlights.RunInv` | internal/cache/cache.go:80-214 | in every reachable state an entry is being fetched exactly while its process has yet to report, and channels wait only at such entries |
| `BlobProgress.NeverStuck` | internal/cache/cache.go:72-263 | in every reachable state a call is done, can go on without anything failing, waits for a channel that is still open, or has had its temporary file taken away |
| `BlobProtocol.LeakNeverShrinks` | internal/cache/cache.go:160-263 | no step ever recovers a leaked byte |
| `BlobProtocol.SecondFetchLeaks` | internal/cache/cache.go:160-175 | two successful fetches that report to one entry are both counted |
| `BlobProtocol.ReplacedEntryStays` | internal/cache/cache.go:91-97 | a caller that finds a file gone drops the entry it looked at and none that has replaced it |
| `BlobProtocol.OverLeakedStaysEmpty` | internal/cache/cache.go:183-198 | once more is leaked than the limit, every later eviction of the run empties the cache |
| `BlobProtocol.LeakIsReachable` | internal/cache/cache.go:160-198 | a run in which that happens |
| `ObjectRanges.SplitObjectRange` | internal/neofs/client.go:933-953 | contiguous non-empty parts in index order that cover the range, all but the last of exactly 512 KiB |
| `ObjectRanges.TilingUnique` | internal/neofs/client.go:933-953 | there is only one such split |
| `ObjectRanges.Reassemble` | internal/neofs/client.go:992-1052 | for every order of arrival, the bytes of the range if all parts arrive, else the first error to arrive |
| `ObjectRanges.FirstErrorIs` | internal/neofs/client.go:999-1007 | the error reported is that of the first part to fail, all before it having arrived |
| `ObjectRanges.Join` | internal/neofs/client.go:1049-1052 | the parts' bytes one after the other are the bytes of the range |
| `ObjectRanges.ReadObjectRangeMultipart` | internal/neofs/client.go:955-1052 | a multipart read returns exactly the range or the first error; with at most one part it is one request |
| `Hydration.FetchData` | internal/fs/mount_windows.go:706-811 | clamps the request and fills exactly the pages around it |
| `Hydration.FillPages` | internal/fs/mount_windows.go:777-810 | the loop ends; its writes tile the cover, start on pages, are whole pages of at most 4 MiB unless they end the file, and are as few as that allows; a failed read leaves a tiled prefix |
| `Hydration.TransferredBytes` | internal/fs/mount_windows.go:777-810 | the writes carry the interval's bytes, each once |
| `Hydration.CoverIsLeast` | internal/fs/mount_windows.go:769-775 | the filled interval is the least aligned one around the request, clipped to the file |
| `Hydration.RequestedBytes` | internal/fs/mount_windows.go:706-728 | a byte is asked for exactly when the file has it and the request, which may begin before the file or be open-ended, reaches it |
| `Hydration.AckRange` | internal/cfapi/cfapi.go:923-954 | acknowledges the interval hydration would fill, exactly unless the request starts a page or more before the file or past its end within its last page |
| `Hydration.InRangeAckMatches` | internal/cfapi/cfapi.go:923-954 | for a request inside the file both mean the same interval |
| `Hydration.AckPastTheEnd` | internal/cfapi/cfapi.go:935-942 | past the end within the last page, the acknowledgement reaches back into the file |
| `Hydration.AckWithoutSize` | internal/cfapi/cfapi.go:923-954 | for a file of unknown size: an error if the request is open-ended, else the least whole pages around it |
| `ObjectStore.Container.FindObjectsByExactPath` | internal/fs/tree.go:703-716 | the IDs of the scan's entries with the path as FilePath or Key, in order |
| `ObjectStore.TitledIsNamed` | internal/fs/tree.go:703-716 | an object goes by a path exactly when its FilePath or its Key is that path, with or without a slash in front |
| `ObjectStore.MatchesAre` | internal/fs/tree.go:703-716 | a truthful scan finds only objects with the path, an up-to-date one all of them |
| `ObjectStore.NewObjectIsNamed` | internal/neofs/client.go:1141-1158 | a put object goes by its path and no other |
| `Uploads.UploadOnClose` | internal/fs/tree.go:1872-2020 | at every recorded step the path still names an object if it did and objects under other paths are untouched; a failed upload changes nothing, and a successful one leaves an object with the path and the written payload |
| `Uploads.TemporaryFiles` | internal/fs/tree.go:1881-1895 | the files that are not uploaded are those whose last segment begins with one of the two temporary prefixes |
| `Uploads.ReplacedKeeps` | internal/fs/tree.go:1987-2020 | the same after the put and any number of deletes, with stale scans and failing deletes |
| `Uploads.ReplacedExactly` | internal/fs/tree.go:1928-2020 | with an up-to-date scan and all deletes done the path names exactly the new object, and another path keeps an object iff one of its objects had no second name here |
| `Uploads.SecondNameIsLost` | internal/fs/tree.go:2014-2020 | closing one path can empty another |
| `UploadProtocol.UploadedPathStays` | internal/fs/tree.go:1928-2020 | with any number of uploads at once, the object put last under a path is there ever after |
| `UploadProtocol.UploadStoresWhatWasWritten` | internal/fs/tree.go:1928-2020 | in every run a put stores under the path and with the payload its upload began with, and the object holds them as long as it is there |
| `UploadProtocol.NoPathEmpties` | internal/fs/tree.go:1872-2020 | a path with an object that goes by no other name under which an upload can put always has one from then on, in any run of concurrent uploads |
| `UploadProtocol.EmptiedBySecondNames` | internal/fs/tree.go:1928-2020 | a path that empties had only objects with a second name under which an upload has put |
| `UploadProtocol.UploadableMeans` | internal/fs/tree.go:531-537 | an upload can put under a path of names exactly when none is empty, `.` or `..` and the last is not a temporary file's |
| `UploadProtocol.EmptiesIffAllHaveOtherNames` | internal/fs/tree.go:1872-2020 | some run of uploads leaves a path without an object exactly when every object there at the start goes by another name under which an upload can put: one that `Create` accepts and the close of the file does not skip |
| `Renames.Rename` | internal/fs/tree.go:447-529 | objects that lie neither in the old directory under the old name nor in the new one under the new name are untouched at every step; when no object matches both paths, every source payload is under one of them at every step; an accepted rename either turns each source into a copy and succeeds, or stops right after the request that failed and reports its error number; refusals change nothing |
| `Renames.NothingStops` | internal/fs/tree.go:492-515 | when every request succeeds and each source is there once, nothing stops the rename |
| `Renames.ClearDestination` | internal/fs/tree.go:479-490 | deleting the destination's objects keeps the sources when the matches are disjoint |
| `Renames.MoveSources` | internal/fs/tree.go:492-515 | copying and deleting sources one by one loses nothing at any step, and ends with all of them or with the first failure |
| `Renames.ClearedLosesOverlap` | internal/fs/tree.go:471-490 | with distinct payloads the sources survive the clearing iff no object was matched for both paths |
| `Renames.OverlapIsLost` | internal/fs/tree.go:471-515 | a concrete object under both paths that a rename loses |
| `Renames.RenamedExactly` | internal/fs/tree.go:471-515 | with up-to-date scans a successful rename leaves nothing at the source and exactly the copies at the destination |
| `Renames.JoinRelLies` | internal/fs/tree.go:2118-2123 | a path joined from a directory and a name is the one whose segments are the directory's and then the name |
| `Renames.RenameLands` | internal/fs/tree.go:467-515 | with up-to-date scans, a successful rename leaves no object in the old directory under the old name, and in the new one under the new name exactly new objects with the payloads of those that were at the old place only |
| `RecursiveDelete.DeleteUnderPrefix` | internal/fs/delete_neofs.go:52-90 | deletes the hits longest path first; a failure after n deletes leaves the store without exactly the first n; whatever happens, no object is deleted unless the segments of its FilePath or Key begin with those of the path |
| `RecursiveDelete.CollectHits` | internal/fs/delete_neofs.go:62-79 | each matching object once, by FilePath before Key |
| `RecursiveDelete.HitsAre` | internal/fs/delete_neofs.go:62-79 | the hits are exactly the objects at or under the path, each once |
| `RecursiveDelete.MatchesAreInTree` | internal/fs/delete_neofs.go:64-71 | matching a path means that the segments of the FilePath or of the Key begin with the path's |
| `RecursiveDelete.HitsLieInTree` | internal/fs/delete_neofs.go:62-89 | however many hits are deleted, an object outside the tree stays |
| `RecursiveDelete.HitsComeFrom` | internal/fs/delete_neofs.go:62-79 | each hit is of a scanned object, by its FilePath if that lies in the tree and else by its Key |
| `RecursiveDelete.SortHits` | internal/fs/delete_neofs.go:80 | the same hits, longest path first |
| `RecursiveDelete.DescendantsFirst` | internal/fs/delete_neofs.go:80-87 | whatever order equal lengths take, nothing is deleted before what lies beneath it |
| `RecursiveDelete.DeletesExactly` | internal/fs/delete_neofs.go:62-89 | with an up-to-date scan and no failure exactly the objects at or under the path are gone |

## Left out

- NeoFS SDK and gRPC calls, sessions, hedged reads and retries: each is a parameter that brings the exact bytes or an error.
- Short or wrong fetches: a fetch that succeeds with fewer bytes than asked for may leave the loop of `Read` without progress.
- The shared file cache behind `loadChunk` and the retry of a failed window: a window either arrives whole or fails.
- RangeFileHandle.Handle.Read: does not model EOVERFLOW by wrap-around; offsets are unbounded and the overflow test is a comparison with the largest 64-bit value. File sizes are taken to leave 12 MiB below it.
- Waiter lists of chunks are only in `RangeProtocol` and `RangeWaiters`; the class has nothing to wait for. A chunk is a value in the map rather than a shared pointer, which the lock makes indistinguishable.
- Wall-clock time: the scan cache has an abstract clock in seconds, the listing cache of the mount and its kernel timeouts are not modelled.
- SHA-256 in cache keys: keys are any distinct strings, and paths made of them are not cleaned.
- Files behave as on Unix: one that is open can be renamed, removed or truncated, and is written to all the same. Systems that refuse this make the request fail, which every step allows.
- A path is opened for writing whatever else lies at or beneath it; which lookup answers or directory nodes the kernel still holds, and its own limits on names, are not modelled.
- A rename is given one error, that of the request that ends it; a get of an object that is gone fails with it as well.
- Removing a file is taken to succeed if it is there, except the temporary file before a fetch; creating, writing, closing and renaming may fail.
- ScanCache.Cache.ListEntriesByHeadScan: returned elements share their attribute map with the cache in the program; the model's elements have no such map.
- A second scan inside `ListEntriesByPrefix` after an invalidation in between is only in `ScanProtocol`.
- Trimming of spaces and back-slashes, path cleaning and case folding: paths are sequences of characters with '/', and names sort by character.
- The sort of hits keeps one order among equal lengths; the lemmas about it hold for every order.
- ObjectRanges.ReadObjectRangeMultipart: does not model the limit of workers or cancellation of late parts; a part reports once, whenever it likes.
- Hydration.FetchData: does not model reading through the disk cache, which brings the same bytes.
- `containerNode.Lookup`, the uploads tracker, audit and history records, logs and trace counters: easy, or no converse of what is modelled.
- CfApi bindings, the directory watcher, placeholder conversion, Explorer registration, the File Provider and the tray: OS and UI plumbing.
