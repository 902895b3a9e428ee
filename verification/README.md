# A model of the network file system, and proofs about it

A naming server maps paths to storage servers; storage servers keep the files. This project models

- the naming server's **path trie** (`trie.c`), once as objects on the heap that stand for a map, once as a step
  machine for any number of threads that lock and unlock nodes one by one;
- its **path cache** (`lru_cache.c`), a doubly linked list whose `next` links also serve the hash scans;
- the **naming server** itself (`naming_server.c`): its table of servers with capped path lists, trie, cache and
  round-robin cursor, as objects with one method per request and as a value with one transition per request;
- the storage servers' **table of file locks** (`ss_file_operations.c`), on the heap and as a value;
- the **storage servers** (`storage_server.c`, `ss_file_operations.c`): any number of servers and of requests, where
  taking the table's mutex, looking a lock up, opening, reading or writing one byte, closing, releasing, connecting,
  sending and receiving are steps of their own and interleave freely, COPY from server to server included.

## How it is organized

| files | what they hold |
|---|---|
| `Paths`, `Protocol` | C strings, their order and hash; what messages are made of |
| `PathTree`, `Trie` | the order of a depth-first walk; the trie on the heap |
| `Linearizability`, `RwLocks` | concurrent histories and how to linearize them; read-write locks |
| `TrieThreads`, `TrieInvariant`, `TrieSteps`, `TrieTheorems` | the trie under concurrent requests: linearizable, no deadlock |
| `Sums`, `TrieCollector`, `TrieProgress` | where a LIST is in its walk; every step leaves less to do |
| `Handlers`, `HandlerEffects` | the scripts of the naming server's handlers; that they do what the requests do |
| `TrieListing`, `TrieAtomicList`, `TrieHistory` | what a LIST returns while other requests change the trie; all four calls linearized |
| `LruSpec`, `LruCache`, `LruTheorems`, `LruContents` | the cache as a value, on the heap, and over runs; what each operation leaves in it |
| `LockSpec`, `LockTable` | the lock table as a value and on the heap |
| `FileStore`, `FileInvariant`, `FileSteps`, `FileEffects`, `FileMessages`, `FileTheorems`, `FileCopies`, `FileResults`, `FileOutcomes` | the storage servers' steps, what every step keeps, and what follows; what operations answer after one another; why requests fail |
| `Cluster` | the naming server's threads and the storage servers as one machine: no deadlock, termination |
| `Listing` | the text that answers LIST |
| `NamingSpec`, `NamingServer`, `NamingAnswers` | the naming server as a value and on the heap; its answers and effects, field by field |
| `NamingLists`, `NamingCache`, `NamingDeleted`, `NamingDisks` | what runs of whole requests keep: path lists and round robin; the cache; deleted paths and freed nodes; files that exist |

In the step machines, a recorder notes when calls begin, take effect and end. Linearizability is stated about what it
recorded, in the terms of Herlihy and Wing: performed one after the other in the order in which they took effect, the
calls have the results they had, and calls that did not overlap keep their order.

LIST has no moment of its own in the step machine. Of any runs at all it is stated what its answer can be; in the
program, where the handlers insert and delete under the servers' mutex, it is the listing of one moment between its
start and its end, and with that moment it joins the others in one linearizable history
(`TrieHistory.AllCallsAreLinearizable`).

Some natural claims are false of the code. Each has the exact condition under which it holds, and a run in which it
fails:

- *What was put last is what a lookup answers.* It holds for a put that created a node or found the node its slot points
  to (`LruTheorems.GetAfterPut`); otherwise the found node moves ahead of the slot's node and an older duplicate may
  answer (`LruTheorems.LastPutNeedNotAnswer`).
- *After a removal the slots point to nodes of their own hash.* The slot moves to the next node of the recency list,
  whatever its hash (`LruTheorems.RemoveKeepsSlots`; `LruTheorems.SlotMovesToOtherHash`).
- *Slots never point to freed nodes.* A removal or an eviction leaves one exactly if another slot pointed to the node it
  frees (`LruTheorems.RemoveKeepsLive`, `LruTheorems.EvictKeepsLive`, `LruTheorems.PutKeepsLive`); after five ordinary
  requests a READ follows such a pointer (`NamingDeleted.FreedNodeIsFollowed`).
- *A deleted path is no longer found.* In every run, for every DELETE that does not follow a freed node: exactly if the
  scan it makes finds the path's only cached node, or there is none (`NamingDeleted.DeletedPathStaysHidden`); if not,
  there are requests, all of them defined and none mapping the path again, after which it is answered.
  `NamingCache.DeletedPathIsFound` is a run of seven requests.
- *Registering a server keeps the path lists disjoint.* Exactly if it advertises distinct paths that no other server is
  listed with (`NamingLists.RegisterKeepsPlaced`; `NamingLists.ListedTwice`).
- *A path that is mapped exists.* Exactly if it neither went in a DELETE whose reply was lost nor was advertised by a
  server that did not have it, or has come since (`NamingDisks.MappedPathsExist`, `NamingDisks.MissingHasCause`;
  `NamingDisks.DeletionGoesUnconfirmed`, `NamingDisks.AdvertisedButAbsent`); until then neither DELETE nor CREATE of
  that path succeeds (`NamingDisks.MissingPathIsRefused`).
- *The lines of a LIST tell which paths are mapped.* Exactly if there are any and none contains a line break
  (`Listing.LinesCanBeToldApart`); without line breaks an empty tree and one that maps only the empty path answer the
  same, and nothing else does (`Listing.SameLines`).
- *A copy equals its source.* Exactly if the source has at most 8191 bytes (`FileCopies.CopiedWhole`;
  `NamingDisks.LongFileIsCut`).

Where the repository's documentation and its code differ, the model follows the code: a cache hit is a scan, not one
step; asynchronous writes, replication, failover and heartbeats are described but not there.

## Model

| member | source | states |
|---|---|---|
| Paths.ComputeHash | lru_cache.c:7-13 | The hash loop computes the 32-bit wrap-around value of the string with signed characters, modulo the number of buckets. |
| Paths.HashIsSum | lru_cache.c:9-11 | The accumulator is the sum of the signed characters times powers of 31, modulo 2 to the power of 32: wrapping around at every character or once at the end is the same. |
| Tries.TrieNode.constructor | trie.c:7-15 | A new node has 256 empty children and no server. |
| Tries.Trie.Insert | trie.c:18-33 | Changes the map at exactly one path; the nodes remain a tree without sharing; exactly the prefixes of the path are added as nodes. |
| Tries.Trie.Search | trie.c:36-53 | Returns the path's latest server, or nothing, whatever prefixes and extensions are mapped. |
| Tries.Trie.Delete | trie.c:99-116 | Unmaps exactly one path and keeps every node. |
| Tries.Trie.CollectPaths | trie.c:93-96 | Collects exactly the first ten mapped paths in strictly increasing byte order, without duplicates. |
| Tries.Trie.CollectPathsRecursive | trie.c:69-90 | Appends the mapped paths of a subtree in depth-first order up to the limit, and restores the shared prefix buffer. |
| PathTree.WalkIsOrdered | trie.c:83-88 | A depth-first walk meets the mapped paths below a prefix, all of them and no others, in strictly increasing order. |
| PathTree.WalkIsFirst | trie.c:74-88 | The first paths of the walk are the smallest mapped paths, as many as the limit allows. |
| PathTree.FirstIsUnique | trie.c:93-96 | Only one sequence is the list of the first paths, so the description of LIST leaves no choice. |
| Tries.Trie.FreeTrie | trie.c:56-66 | Frees every node of a subtree exactly once, the nodes of longer paths before those of their prefixes. |
| Tries.Trie.Free | naming_server.c:448 | From the root, exactly the nodes of the trie are freed, none twice, and none before a node its child pointers lead to. |
| TrieSteps.AccessRepresents | trie.c:31 | Reaching the node of the whole path, an operation does there exactly what it does to the map. |
| TrieInvariant.NoNodeBeyond | trie.c:42-45 | Where a walk finds no child, no longer path has a node, so the answer "not there" is right at that moment. |
| TrieSteps.OnlyOneWriter | trie.c:24-27 | The write lock keeps a second thread from creating the same child. |
| TrieSteps.MakeKeepsInv | trie.c:24-26 | Creating a child keeps the nodes a tree and the map what it was, for every other thread's position in the trie too. |
| TrieSteps.StepKeepsInv | trie.c:27-29 | Reading the child pointer after the parent was unlocked leads to the node of the longer prefix. |
| TrieTheorems.TrieIsLinearizable | trie.c:18-116 | In every interleaving of any number of inserts, searches, deletes and walks the inserts, searches and deletes are linearizable to a map from paths to servers, and the tree stands for the map they lead to. |
| TrieTheorems.SearchFindsLastInsert | trie.c:36-53 | In a linearized history a search answers what the last insert of exactly its path put there, nothing after a delete of it, and nothing before the first insert. |
| TrieTheorems.WaitsForConflict | trie.c:20-48 | In every reachable state an insert, search or delete waits for a node exactly while another request is at that node and one of the two inserts or deletes. |
| TrieTheorems.WalkWaitsForConflict | trie.c:72 | The same for a walk that goes down to a node. |
| TrieTheorems.NodesAreTree | trie.c:18-33 | At every moment of every interleaving the nodes are one tree: no path has two nodes, and every node but the root is the child of the node of its prefix. |
| TrieTheorems.ChildrenAreWriteOnce | trie.c:24-26 | A child pointer, once set, never changes, so it may be read after the node was unlocked. |
| TrieTheorems.NoDeadlock | trie.c:69-90 | In every reachable state with an unfinished request some thread can step, even if readers queue behind waiting writers. |
| Handlers.HandlersAreDisciplined | naming_server.c:73-389 | Every branch of every request takes the servers' mutex before trie and cache locks, and takes nothing while it holds the cache's; it waits for a storage server only while it holds none. |
| HandlerEffects.ScriptsMatchRequests | naming_server.c:73-389 | For every request, in the branch that the state and the storage server's reply select, the trie calls of the handler's script do to the trie what the request does to the naming server as a value. |
| HandlerEffects.RegisterDoes | naming_server.c:80-87 | A registration inserts every advertised path, in order, for the new server; if there is no room, none. |
| HandlerEffects.CreateDeeds | naming_server.c:136-208 | CREATE searches its own path; if that is free and there is a server, it asks the one whose turn it is to create that path, and on success inserts the path for it. |
| HandlerEffects.DeleteDeeds | naming_server.c:209-269 | DELETE searches its path; if that is mapped it asks its server to delete it, and on success deletes it from the trie. |
| HandlerEffects.CopyDeeds | naming_server.c:270-358 | COPY searches source and destination, asks the source's server to copy to the destination's or to the one whose turn it is, and on success inserts the destination if it was free. |
| HandlerEffects.LocateDeeds | naming_server.c:359-366 | READ, WRITE and GET_FILE_INFO search the trie once if the cache does not know the path, and not otherwise. |
| HandlerEffects.LocksTaken | naming_server.c:27-37 | How often each branch takes the servers' mutex and the cache's lock. |
| TrieProgress.NeverGrowsMore | trie.c:22-30 | The nodes there are, together with the bytes that inserts have still to walk, never become more, whoever steps. |
| TrieProgress.StepsDecrease | trie.c:18-116 | Every step of every thread leaves less to do, also for a LIST in a tree that grows under it. |
| TrieProgress.FiniteRequestsFinish | naming_server.c:73-389 | Once no more requests arrive, the number of further steps of the naming server's threads is bounded by the work left, however they interleave. |
| TrieProgress.StuckRunsAreFinished | naming_server.c:73-389 | A run of the naming server's threads that cannot go on has served every request. |
| TrieCollector.BufferIsPath | trie.c:83-87 | At every level of the recursion the shared buffer spells the path of that level's node. |
| TrieCollector.DoneIsLess | trie.c:74-88 | A node that is about to be looked at comes after every path the collector is through with. |
| TrieListing.ListAnswers | trie.c:69-96 | Whatever inserts and deletes interleave with it, a LIST returns at most ten paths in strictly increasing order; each was mapped at some moment of the walk; a path mapped at all of them is there, unless the list is full of smaller ones. |
| TrieListing.UndisturbedListIsExact | trie.c:69-96 | If the map does not change during the walk, the answer is exactly its first ten paths. |
| TrieAtomicList.HandlersAreGuarded | naming_server.c:73-389 | Every branch of every request inserts and deletes only while it holds the servers' mutex. |
| TrieAtomicList.ChangesOnce | trie.c:20-31 | While a LIST holds the root's read lock at most one insert or delete takes effect: one that was past the root already. |
| TrieAtomicList.ListIsAtomic | naming_server.c:104-135 | In every run of the handlers a LIST returns exactly the first ten paths mapped at one moment between its start and its end. |
| TrieHistory.AllCallsAreLinearizable | naming_server.c:73-389 | In every run of the handlers the history of all inserts, searches, deletes and lists together is linearizable to one map, each list answering its first ten paths, and the order leads to what the tree stands for. |
| TrieHistory.EventsAreShown | naming_server.c:104-135 | That history shows the start and the end of every list, with the paths it found. |
| LruCaches.LruCache.constructor | lru_cache.c:16-24 | The empty cache. |
| LruCaches.LruCache.MoveToFront | lru_cache.c:27-55 | The pointers describe the list with that node moved to the front. |
| LruCaches.LruCache.FindNode | lru_cache.c:60-66 | The scan ends at the first node for the path at or after the slot's node in recency order. |
| LruCaches.LruCache.Get | lru_cache.c:58-75 | The heap after a lookup, and its answer, are those of the value, from every state in which the path's slot does not point to a freed node. |
| LruCaches.LruCache.Put | lru_cache.c:78-135 | From every such state, the heap after a put is that of the value: update and move, or insert, evicting the tail when full. |
| LruCaches.LruCache.EvictTail | lru_cache.c:96-108 | From every full state, the last node goes, and its slot if that pointed to it; other slots keep their pointers, to freed nodes or not. |
| LruCaches.LruCache.Remove | lru_cache.c:138-177 | From every state in which the path's slot does not point to a freed node, the list remains one well-linked list of the right length, without the node found; only the path's slot may move. |
| LruCaches.LruCache.Destroy | lru_cache.c:180-196 | Every node is freed exactly once, and the cache is empty. |
| LruTheorems.FindMeansFirstBehindSlot | lru_cache.c:60-66 | A lookup finds node i exactly if it is the first for the path at or after the node its slot points to. |
| LruTheorems.GetMovesToFront | lru_cache.c:63-74 | A hit moves that node to the front, keeps the order of the others and answers its record; a miss changes nothing. |
| LruTheorems.RunKeepsInv | lru_cache.c:58-135 | After any run of lookups and puts: at most 100 distinct nodes, and every slot is empty or points to a live node of its own hash. |
| LruContents.PutStores | lru_cache.c:84-134 | After a put the first node holds the path and the value just put, found or new; behind it are the nodes that were there, unchanged and in order, but for the last if a full cache had to make room. |
| LruContents.PutSetsSlots | lru_cache.c:94-134 | A put that finds its node moves no slot; one that does not points the path's slot to the new node and empties the evicted node's own slot if that pointed there. |
| LruContents.RemoveSetsSlots | lru_cache.c:150-175 | A removal moves the path's slot, if that pointed to the node found, to the next node of the list or to nothing, and no other slot. |
| LruContents.NodesHoldLastPut | lru_cache.c:84-119 | After every run each node holds the path and value of the last put that used it. |
| LruTheorems.RecencyOrder | lru_cache.c:27-55 | The list is always in strict order of last use. |
| LruTheorems.EvictsLeastRecentlyUsed | lru_cache.c:94-109 | A full cache gives up the node unused for longest, and only that one. |
| LruTheorems.EntriesWerePut | lru_cache.c:88-119 | What the cache holds for a path was put for exactly that path. |
| LruTheorems.AnswersWerePut | lru_cache.c:58-75 | Every answer was put earlier for exactly that path. |
| LruTheorems.GetAfterPut | lru_cache.c:84-91 | Exactly what a lookup right after a put answers, collisions and duplicates included. |
| LruTheorems.LastPutNeedNotAnswer | lru_cache.c:84-91 | A run in which a lookup answers an older value than the last put. |
| LruTheorems.RemoveTakesOneOut | lru_cache.c:150-175 | A removal takes exactly the node found out of the list and keeps the others in order; if none is found nothing changes. |
| LruTheorems.RemoveForgets | lru_cache.c:144-148 | Right after a removal no node holds the path exactly if the scan found its only node. |
| LruTheorems.RemoveKeepsSlots | lru_cache.c:152-156 | No slot but the path's own moves, and the slots stay sound exactly if that one does not move to a node of another hash. |
| LruTheorems.SlotMovesToOtherHash | lru_cache.c:155 | After put A, put B and remove B the slot of B points to the node of A. |
| LruTheorems.RemoveKeepsLive | lru_cache.c:150-173 | A removal leaves no slot pointing to the node it frees exactly if no slot but the path's own pointed there. |
| LruTheorems.EvictKeepsLive | lru_cache.c:96-107 | The same for the node that a full cache gives up. |
| LruTheorems.PutKeepsLive | lru_cache.c:78-135 | The same for a whole put, whose own slot is set anew. |
| LruTheorems.GetKeepsLive | lru_cache.c:58-75 | A lookup leaves no slot pointing to a freed node. |
| LockTables.FileLockTable.constructor | ss_file_operations.c:24-28 | The empty table. |
| LockTables.FileLockTable.GetOrCreate | ss_file_operations.c:31-53 | Returns the path's lock, creating it only if there is none; locks neither move nor vanish. |
| LockTables.FileLockTable.FindLock | ss_file_operations.c:75-84 | The scan at release finds what the value's scan finds. |
| LockTables.FileLockTable.Destroy | ss_file_operations.c:251-265 | Every lock of every bucket is freed exactly once, and the table is empty. |
| LockSpec.FindIsTheLock | ss_file_operations.c:35-40 | A path has at most one lock, in its own bucket, and the scan finds it exactly if it exists. |
| LockSpec.GetOrCreateKeepsInv | ss_file_operations.c:31-53 | One lock per path, each in its path's bucket and there once, is kept. |
| LockSpec.SameLockLater | ss_file_operations.c:73-86 | Whatever locks were added since, the scan at release finds the lock that was acquired. |
| FileSteps.ReleasesTheSameLock | ss_file_operations.c:106-119 | In the running servers, a release unlocks the lock its own request holds. |
| FileInvariant.Excludes | ss_file_operations.c:89-103 | While a request that may change a file is inside its operation, no other request is inside one on that file. |
| FileMessages.TransitionKeepsInv | storage_server.c:61-242 | Every step of every request keeps locks, files in progress, records and replies consistent. |
| FileTheorems.FilesAreLinearizable | storage_server.c:80-108 | In every interleaving, reads, writes, enquiries, creations and deletions look as if each had been done at one moment between its arrival and its reply. |
| FileResults.AfterWrite | ss_file_operations.c:205-249 | After a write, no change to that file between: an enquiry reports a file of exactly the size written, a read returns what was written up to 8191 bytes or fails to open, a directory cannot be created there; the write succeeded exactly if all of it was written. |
| FileResults.AfterCreate | ss_file_operations.c:122-143 | After a creation an enquiry reports a file of size 0 or a directory, as was asked for; a file reads as empty; a directory can be neither read, written nor created again. |
| FileResults.AfterDelete | ss_file_operations.c:146-188 | After a successful deletion reading, enquiring and deleting answer FILE_NOT_FOUND. |
| FileResults.Untouched | ss_file_operations.c:191-249 | The same for what was there at the start and has not been changed. |
| FileResults.FailedChangesNothing | ss_file_operations.c:205-223 | An operation that failed, unless in the middle of a write, has changed nothing. |
| FileTheorems.WaitsForConflict | ss_file_operations.c:56-103 | In every reachable state a request waits for its file exactly while one that conflicts with it is inside: reads and enquiries pass each other. |
| FileOutcomes.StepEnds | storage_server.c:176-225 | A step ends a request with a code exactly for these reasons: SS_UNAVAILABLE for a refused connection, NETWORK_ERROR for a failure to send or a lost reply, the reply's own code, or the code of its own operation if there is nothing to pass on. |
| FileOutcomes.EndsForReason | storage_server.c:161-230 | In every run each request that has ended did so for one of these reasons, at one step; a reply is to the request it passed on, an own code is the recorded result's. |
| FileTheorems.MutualExclusion | ss_file_operations.c:56-119 | Never a writer together with another holder on one file. |
| FileTheorems.ReadersSeeCompleteWrites | storage_server.c:80-89 | A reader's file is as the operations that took effect left it, never in the middle of one; a write that failed half-way, and says so, took effect with what it wrote. |
| FileTheorems.IdleFilesAreCommitted | storage_server.c:90-98 | A file on which nobody is working is as completed operations left it. |
| FileTheorems.NoDeadlock | storage_server.c:161-230 | In every reachable state with an unfinished request somebody can step, nothing failing and writers going first: COPY to the same server, onto the same file or in circles included. |
| FileTheorems.StepsDecrease | storage_server.c:61-242 | Every step of every request, failing or not, leaves less to do. |
| FileTheorems.FiniteRequestsFinish | storage_server.c:61-242 | Once no more requests arrive, the number of further steps is bounded by the work left, however they interleave. |
| FileTheorems.StuckRunsAreFinished | storage_server.c:61-242 | A run that cannot go on has answered every request. |
| FileCopies.CopyIsFaithful | storage_server.c:161-230 | A successful COPY read, at one moment, the first 8191 bytes of the source and stored exactly those, later, at the destination. |
| FileCopies.ForwardedIsPerformed | naming_server.c:157-188 | When the naming server is told that a CREATE or DELETE succeeded, it was performed, at one moment, at the storage server. |
| FileCopies.ForwardedCopyIsFaithful | naming_server.c:301-334 | When it is told that a COPY succeeded, the copy was made from the one storage server to the other. |
| FileCopies.CopiedWhole | ss_file_operations.c:198 | The copy is the whole source exactly if that has less than 8192 bytes. |
| FileCopies.ReadsLastWrite | ss_file_operations.c:191-223 | A read after a write with no change between returns what was written up to 8191 bytes, and all of it exactly if it is shorter than 8192. |
| FileCopies.CopiedIsCopyOnce | storage_server.c:161-230 | A faithful copy whose source did not change meanwhile has the effect of one atomic copy. |
| FileCopies.CopyChains | ss_file_operations.c:198-199 | Any chain of copies, even through the same place again, is one truncation. |
| Listing.LinesCanBeToldApart | naming_server.c:120-126 | A client that splits the answer into lines gets the listed paths exactly if there are any and none contains a line break. |
| Listing.SameLines | naming_server.c:120-126 | Without line breaks two listings give the same answer only if one is empty and the other holds just the empty path. |
| Listing.LinesJoin | naming_server.c:120-126 | The text of two listings in a row is the one, a line feed and the other, whatever the paths contain. |
| Cluster.TransitionKeepsInv | naming_server.c:136-358 | Every step of handlers and storage servers together, sending a request on and taking its reply included, keeps both invariants, and whoever waits waits for a request that exists. |
| Cluster.NoDeadlock | naming_server.c:157-188 | In every reachable state of the whole system with an unfinished request, a handler that waits for a storage server included, somebody can step, nothing failing and writers going first. |
| Cluster.ProgressDecreases | storage_server.c:161-230 | Every step of a handler or a storage server, failing or not, leaves the whole system less to do, requests not yet sent on included. |
| Cluster.FiniteRequestsFinish | naming_server.c:301-334 | Once no more requests arrive, the number of further steps of handlers and storage servers together is bounded by the work left. |
| Cluster.StuckRunsAreFinished | naming_server.c:73-389 | A run of the whole system that cannot go on has served every request. |
| NamingServers.StorageServerInfo.constructor | naming_server.c:77-83 | A record holds the advertised paths in order. |
| NamingServers.StorageServerInfo.AddPath | naming_server.c:192-197 | Appends the path unless ten are listed. |
| NamingServers.StorageServerInfo.RemovePath | naming_server.c:40-51 | Takes the path's first occurrence out and shifts the rest, in place. |
| NamingServers.NamingServer.GetAvailableSsForCreation | naming_server.c:27-37 | Returns the cursor's server, if there is any, and moves the cursor on. |
| NamingServers.NamingServer.HandleRegister | naming_server.c:73-103 | The globals after a registration, and the answer, are those of the transition. |
| NamingServers.NamingServer.HandleList | naming_server.c:104-135 | The answer is the first ten mapped paths in byte order, one a line. |
| NamingServers.NamingServer.HandleCreate | naming_server.c:136-208 | The globals after a CREATE, for every outcome of connecting, sending and receiving, are those of the transition, which `NamingAnswers` describes field by field. |
| NamingServers.NamingServer.HandleDelete | naming_server.c:209-269 | The same for DELETE, unless it would start at a slot that points to a freed node. |
| NamingServers.NamingServer.HandleCopy | naming_server.c:270-358 | The same for COPY. |
| NamingServers.NamingServer.HandleLocate | naming_server.c:359-382 | The same for READ, WRITE and GET_FILE_INFO, unless the path's slot points to a freed node. |
| NamingAnswers.ForwardedAnswers | naming_server.c:157-206 | A CREATE, DELETE or COPY that is passed on is acknowledged exactly if the storage server answers ACK with SUCCESS; otherwise the code is SS_UNAVAILABLE for a refused connection, the answer's own, or NETWORK_ERROR. |
| NamingAnswers.OwnAnswers | naming_server.c:72-389 | What is not passed on: REGISTER is acknowledged exactly if fewer than 100 servers are registered; FILE_EXISTS, FILE_NOT_FOUND, SS_UNAVAILABLE and INVALID_OPERATION in their cases; LIST answers the first ten paths. |
| NamingAnswers.CreateChanges | naming_server.c:136-208 | A CREATE that is passed on moves the cursor on; acknowledged, it maps the path to the server whose turn it was, full list or not, and lists it there if fewer than ten are; nothing else changes. |
| NamingAnswers.CopyChanges | naming_server.c:270-358 | The same for a COPY to an unmapped path; one to a mapped path changes nothing. |
| NamingAnswers.DeleteChanges | naming_server.c:253-269 | An acknowledged DELETE unmaps the path, drops its first occurrence from its server's list and removes it from the cache; any other changes nothing. |
| NamingAnswers.OthersChange | naming_server.c:73-103 | An acknowledged registration adds one server with its address and paths, all of them mapped to it; a refused one, LIST and unknown operations change nothing. |
| NamingAnswers.LocateChanges | naming_server.c:359-366 | A lookup changes only the cache: the node found moves to the front, or the address of a mapped path's server is cached in front. |
| NamingAnswers.ClientsAreDirected | naming_server.c:371-380 | In every run without DELETE with fresh registrations a client that asks for a mapped path is told the address and client port with which the path's server registered, any other FILE_NOT_FOUND. |
| NamingAnswers.DirectionsWereTrue | naming_server.c:371-374 | In every run a client that is sent anywhere is sent to the client port of a server to which the path was mapped then or earlier. |
| NamingLists.RegisterKeepsPlaced | naming_server.c:80-87 | Lists without duplicates, at most ten long, each path mapped to its list's server, are kept by a registration exactly if the new server advertises distinct paths that no other server lists. |
| NamingLists.ListedTwice | naming_server.c:82-87 | Two servers that register with the same path: a run after which both lists hold it. |
| NamingLists.RemovePathForgets | naming_server.c:40-51 | From a list without duplicates exactly that path goes. |
| NamingLists.DeleteKeepsPlaced | naming_server.c:253-259 | DELETE keeps the lists in order and every other path listed or not as it was. |
| NamingLists.ServesKeepsPlaced | naming_server.c:188-198 | Every request keeps the lists in order, and leaves unlisted only what was unlisted or was just created at a full list. |
| NamingLists.ListsPartitionPaths | naming_server.c:336-348 | In every run the mapped paths are partitioned into the servers' lists and the overflow. |
| NamingLists.ListsAreDisjoint | naming_server.c:40-51 | No path is in two lists. |
| NamingLists.OverflowCameFromFullList | naming_server.c:192-197 | Every unlisted path was created when its server's list was full. |
| NamingLists.CursorMoves | naming_server.c:27-37 | Every request but a registration keeps the servers; it moves the cursor by one exactly if it chooses a server, the cursor's. |
| NamingLists.RoundRobinIsFair | naming_server.c:27-37 | Among n servers, m choices, in whatever mix of requests, give each server m/n turns, rounded down or up. |
| NamingSpec.Handle | naming_server.c:72-389 | Pointers to servers stay in bounds, and the cursor below the number of servers or both 0, after every request. |
| NamingCache.LocateIsTransparent | naming_server.c:359-382 | With a coherent cache the answer, hit or miss, is the trie's. |
| NamingCache.RegisterKeepsCoherent | naming_server.c:82-87 | A registration keeps the cache coherent exactly if no cached path moves to a server with another address. |
| NamingCache.CacheIsTransparent | naming_server.c:359-382 | In every run without DELETE with fresh registrations every client is told what the trie alone would tell, despite collisions, duplicates and evictions. |
| NamingCache.DeleteKeepsCoherent | naming_server.c:253-259 | A successful DELETE keeps the cache coherent exactly if the scan finds the path's only node and the slot does not move to another hash. |
| NamingCache.DeletedPathIsFound | naming_server.c:257 | A run in which a deleted path is still answered from the cache. |
| NamingDeleted.DeletedPathStaysHidden | naming_server.c:253-259 | In every run, after any DELETE whose own slot does not point to a freed node no client is told that the path is there, whatever requests follow, until it is mapped again: exactly if the scan finds the path's only cached node, or there is none. |
| NamingDeleted.RunIsAnchored | lru_cache.c:94-135 | In every run a full cache holds a node that its own slot points to and whose path is mapped. |
| NamingDeleted.HeldPathSurfaces | lru_cache.c:60-66 | A cached node that outlives its DELETE can always be reached again: requests follow, each defined and none mapping the path, the last of which answers it. |
| NamingDeleted.LiveStepsAreDefined | naming_server.c:253-382 | While no slot points to a freed node no request follows one, and none does afterwards exactly if the request frees no node that another slot points to. |
| NamingDeleted.CleanRunsStayLive | naming_server.c:253-382 | In every run no slot has pointed to a freed node so far exactly if every request so far freed no node that another slot pointed to. |
| NamingDeleted.CleanRunsAreDefined | naming_server.c:253-382 | And then the next request follows no freed node. |
| NamingDeleted.RunsWithoutDeleteAreDefined | naming_server.c:359-382 | In every run without DELETE all slots stay sound and no freed node is ever followed. |
| NamingDeleted.FreedNodeIsFollowed | lru_cache.c:152-172 | Five requests after which the next READ of a path follows a pointer to a freed node. |
| NamingDisks.TrieGrowsOnAckOnly | naming_server.c:188-206 | Apart from registrations, which map whatever is advertised, the trie gains or changes a path only by an ACK with SUCCESS, and then the file is on that server. |
| NamingDisks.AckedCopyExists | storage_server.c:216-219 | An acknowledged COPY has stored the first 8191 bytes of its source. |
| NamingDisks.FilesStay | ss_file_operations.c:146-188 | Files go only by a DELETE of the path mapped there. |
| NamingDisks.MappedPathsExist | naming_server.c:243-267 | In every run, with requests refused, unanswered or failing and servers that advertise what they do not have, a mapped path exists on its server exactly if it is not missing. |
| NamingDisks.MissingHasCause | naming_server.c:82-249 | A file is missing exactly if it went in a DELETE that was performed and that the client was told had failed with NETWORK_ERROR, or was advertised without being there, and has not come since. |
| NamingDisks.AdvertisedButAbsent | naming_server.c:82-87 | A run in which the only request is a registration of a path that the server does not have: it is mapped and missing. |
| NamingDisks.DeletionGoesUnconfirmed | naming_server.c:243-249 | A run with such a DELETE. |
| NamingDisks.LongFileIsCut | storage_server.c:161-230 | For every file of 8192 bytes or more, a run in which a COPY is acknowledged and stores its first 8191 bytes. |
| NamingDisks.MissingPathIsRefused | naming_server.c:136-143 | While a mapped path is missing, until a write, copy or registration may bring the file, every DELETE and every CREATE of the path is refused, with these codes. |

## Left out

- Sockets, `select`, the command line, logging, `utils.c`, `client.c` and the `main` loops: a message arrives whole or not at all, and which of the two is a choice of the environment.
- Replication, failover, asynchronous writes, recovery and heartbeats: documented, but not in the code; `ss_write` ignores the mode.
- Allocation failure, and the failures of lock calls: then acquiring returns an error and the request is answered FILE_IN_USE.
- Paths of 1024 bytes and more, more than ten advertised paths, and LIST answers longer than a message: the C buffers would overflow.
- Signedness of characters on other platforms: the hash assumes signed ones.
- The file system below: aliases of one path, parent directories, permissions, special files and non-empty directories show only as operations that may fail; opening a directory for reading fails here, while some systems let it be opened and read as empty; failures that only closing a file reports; the size an enquiry reports for a directory, 0 here.
- The record a lookup returns is a copy; the code returns a pointer into a node that another request may free.
- The port fields and path lists inside cached records that no answer uses.
- CREATE's check and its later insertion in concurrent requests: claims about lists, cache and files are for runs of whole requests; locks, trie and files are interleaved step by step.
- Handlers.HandlersAreDisciplined: a handler's branch is given in advance, so the runs it allows include all real ones and some more.
- What the program does once it follows a pointer to a freed node: undefined. The heap's methods require that the slot they start from does not point to one; the transitions on values take such a slot for an empty one. Memory that is handed out again counts as a new node.
- NamingServers.NamingServer.HandleRegister: the new record is complete before its paths are mapped, while the code maps each path as it copies it; both happen under the servers' mutex.
- NamingServers.NamingServer.constructor: the tables are objects of the server, where the program has global variables.
- The storage servers' handlers are steps of a machine on values, not methods on the heap: their local variables are not shared, and the lock table they share is the one proved against the heap in `LockTables`.
