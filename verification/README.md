# tpuf: verified model

A small search engine over an object store keeps its truth in write-once log segments and one
manifest per namespace that only changes by compare-and-swap. Everything else it serves from (index
epochs, cluster lists, bitmaps, a centroid tree, caches, an inverted index, quantized codes) is a
faster form that has to agree with a plain fold of the log. This project models those parts in Dafny
and proves the agreement.

Verify with `dafny verify dfyconfig.toml`.

## What is modelled

* **Store, manifests, log and branches** (`Storage`, `Cas`, `Manifests`, `Protocol*`, `Forks`, `BranchReads`, `ForkRace`,
  `Progress`, `Schemas`).
  The in-memory store is a class. `Protocol` is a state machine whose steps are single store
  operations of any number of clients upserting, building, forking and querying, any of which may
  stop for good at any point; `ProtocolInvariant`, `ProtocolSteps` and `ProtocolReads` show that
  every step keeps the invariant, `ProtocolSafety` draws the conclusions over whole runs.
  `Forks` says what a fork captures, `BranchReads` exactly when an indexed read of a branch is a
  point-in-time read, and `ForkRace` is a run in which it is not. `Progress` says what a client left
  alone brings about, so that none of this holds for want of anything happening. Conditional
  writes follow sections 13.1.1 and 13.1.2 of RFC 9110, a refused one is the 412 of its section
  15.5.13.
* **Index builds** (`KMeans`, `Postings`, `Reassignment`, `Lire`, `Epoch`, `IndexBuild`, `MissedNeighbours`). The LIRE
  working set is a class whose methods insert, split, merge, reassign, prune and snapshot in place.
  Maps the engine ranges over are visited here in arbitrary order, so what is proved holds for every
  order.
* **Queries** (`Filters`, `AttributeIndex`, `Planner`, `CentroidTree`, `SmallTrees`, `Ranking`, `Query`). The
  reference is `Ranking.BruteForce`. The prefilter is any scoring function at all.
* **Bitmaps** (`Words`, `Bitmaps`). Containers and bitmaps are classes over arrays of ids and 64-bit
  words; the planner runs on these objects.
* **Whole histories** (`Namespaces`, `Transparency`). A namespace object carries the index through any
  sequence of upserts, builds and queries; `Transparency` puts the concurrent protocol, the builds and
  the query together.
* **Queue and group commit** (`Queue`, `QueueRuns`, `Committer`). The committer's machine carries a protocol state:
  a commit is the work of one protocol client, and may break off with an error at any point.
* **Caches** (`Nvme`, `Cache`), **text** (`Bm25`, `TextQueries`) and **quantized codes** (`Rabitq`).

`Types` and `Sorting` hold what they share.

## What the results rest on

* One index build of a namespace at a time, into an empty epoch prefix (`Protocol.MayBuild`). The
  engine reads the epoch number without a guard (internal/engine/indexer.go:94-103), writes the
  objects unconditionally and assigns the epoch unconditionally (internal/engine/indexer.go:170-174).
* Worker ids are not empty (`Queue.NamedWorkers`); namespace names are not empty. The 65-namespace
  limit of a branch walk is in the model: a deeper walk fails.
* Attribute numbers are reals, so there is no negative zero and no NaN; the number format used in
  bucket keys tells distinct numbers apart (`Filters.Injective`).
* `QueueRuns.NoFreshStamp` supposes that the stamps of one ownership do not decrease; without that only
  the last of them counts, which is `QueueRuns.TakenOnlyWhenStale`.
* Cache keys are write-once and their hash has no collisions.
* Distances are any non-negative function of two vectors; in `SmallTrees` they are zero on equal
  vectors only. The logarithm is positive above one, and increasing in `Bm25.RarerTerm`. The square
  root is a positive root. Tokenizing is any function of the text.
* Go integers are 64 bits wide: the query methods take nProbe and topK below 2^63, and the products
  of the beam width and of the shortlist limit wrap.

## Where the documentation says otherwise

The model follows the code.

* The comment of `Upsert` allows a zero-length vector (internal/engine/namespace.go:71-73); the code
  rejects a vector that is present and whose length differs from the dimension
  (internal/engine/namespace.go:163-172).
* The comment of `clusterLive` says both strategies leave every vector at its nearest *final* centroid
  (internal/engine/indexer.go:334-338), and that of `lireIndex` that a build sets `reassignTopN`
  generously (internal/engine/lire.go:53-61). A build never sets it (internal/engine/indexer.go:529), so
  its reassignment looks at no neighbour of a changed posting, and it recentres after the moves
  (internal/engine/lire.go:472-476). What holds of every inserted or moved vector is nearest by the
  centroids as they stood when the reassignment began. For all others `MissedNeighbours.BuildNearestExactly`
  says exactly when, and `MissedNeighbours.LostStaysBehind` is a working set for which it fails.
* Branches are described as point-in-time forks (internal/engine/branch.go:50-54). A branch forked before
  its parent's first epoch may read an epoch the parent published later
  (internal/engine/branch.go:206-230). `ForkRace.BranchReadLeaks` is a run where that goes wrong, and
  `BranchReads.BranchReadIff` says exactly which reads are right, from the fork points, what the
  ancestor had indexed and its log.
* A request's topK is not bounded from above (cmd/tpuf-node/main.go:126), and the shortlist limit of
  four times topK overflows from 2^61 on (internal/engine/query.go:535): `Query.LimitWraps`,
  `Query.NothingKept` and the panic case of `Query.RunVectorQuery`.

## Model

| member | source | states |
|---|---|---|
| `Storage.EtagIdentifiesBody` | internal/storage/memory.go:42-46 | An ETag is never reused: after any run of writes, an object whose ETag was issued before the run is the object of then. This is what makes If-Match an atomic read-modify-write. |
| `Storage.WriteOnceKeeps` | internal/storage/memory.go:75-83 | A key written only by PutIfAbsent keeps its first body through any run of writes. |
| `Storage.EtagsStayIssued` | internal/storage/memory.go:35-38 | ETags of distinct objects differ and none exceeds the counter, through any run of writes. |
| `Storage.MemStore.PutCAS` | internal/storage/memory.go:62-71 | Succeeds if and only if the key exists under exactly this ETag; the whole store is then the old one with this body under a fresh ETag, and otherwise unchanged (412). |
| `Storage.MemStore.PutIfAbsent` | internal/storage/memory.go:75-83 | Succeeds if and only if the key is absent; otherwise the store is unchanged. |
| `Storage.MemStore.Put` | internal/storage/memory.go:87-92 | Always writes, under a fresh ETag. |
| `Storage.MemStore.Get` | internal/storage/memory.go:49-58 | The stored body and ETag, or not-found. |
| `Cas.SaveCas` | internal/engine/manifest.go:93-119 | The retry loop, with arbitrary writes of others between each read and its conditional write: a reported commit is one atomic application of the closure to the state the others had produced; a decline, a missing object and exhaustion write nothing, and it is exhausted only if others wrote the key during every attempt. |
| `Cas.CommitsAreSerial` | internal/engine/queue.go:165-191 | For any number of callers in any interleaving the committed bodies are a serial chain from the first body to the current one; a call that reports a commit contributed exactly one link, from the body its last attempt read to the one it reports; every other call contributed none. |
| `Cas.GivesUpOnlyBeaten` | internal/engine/manifest.go:93-119 | The loop is lock-free: in any interleaving a call gives up only if, since it began, others have committed at least once for each of its attempts. |
| `Cas.AloneIsDone` | internal/engine/queue.go:165-191 | A call nobody interferes with commits what its closure asks for on the first attempt, or declines exactly when the closure does. |
| `Manifests.CommitsChain` | internal/engine/manifest.go:93-119 | After any n commits by any writers the version is n higher, WALSeq is one past the highest committed position (never lower than before), the index pointer is that of the last publication, and schema and fork fields are unchanged. |
| `ProtocolSafety.LogIsWhole` | internal/engine/namespace.go:106-158 | In every reachable store, every position in [fork, WALSeq) of a namespace has its segment, every inherited position too, and IndexedUpTo <= WALSeq. |
| `ProtocolSafety.AcknowledgedIsKept` | internal/engine/namespace.go:81-95 | No acknowledged upsert is lost in any continuation: its documents are for ever one contiguous run of the logical log, below WALSeq. |
| `ProtocolSafety.PrefixIsFrozen` | internal/engine/branch.go:248-273 | WALSeq never falls, and no later step of any client in any namespace changes a log prefix once advertised, or the documents it folds to; for a branch this is its isolation from parent and siblings. |
| `ProtocolSafety.QueryIsAtomic` | internal/engine/query.go:56-94 | A query takes effect at its manifest read. Whatever ran in between, its tail is the log as it stood then, and that log contains every upsert acknowledged before the read; for a root, a namespace with an epoch of its own and a branch that captured one, with no further condition, index and tail together are that log. |
| `ProtocolSafety.LiveEpochIsPrefix` | internal/engine/indexer.go:93-178 | Every object under the epoch a manifest points at was derived from exactly the log prefix [0, IndexedUpTo). |
| `ProtocolSafety.LiveEpochIsOneBuild` | internal/engine/indexer.go:93-178 | All objects under that epoch were written by one and the same build. |
| `ProtocolSafety.ViewsTile` | internal/engine/branch.go:154-199 | The runs a walk resolves tile [0, WALSeq) with no gap and no overlap, oldest first, each under the namespace that owns it. |
| `ProtocolSafety.ChainsAreFinite` | internal/engine/branch.go:61-108 | Parent pointers are acyclic in every reachable store, so a walk visits distinct namespaces and ends. |
| `BranchReads.BranchReadIff` | internal/engine/branch.go:206-273 | What any finished read answers, from manifests and logs alone. It is the log unless the climb stopped at an ancestor a of a branch that captured no epoch. Then, with f the lowest fork point up to a and e what a had indexed when the climb read it: right if e <= f; otherwise right if and only if the writes of a in [f, e) changed no document that the tail of the branch leaves alone. |
| `BranchReads.LogsBelow` | internal/engine/branch.go:154-199 | Below the lowest fork point between them a branch and any ancestor have one log. |
| `ForkRace.BranchReadLeaks` | internal/engine/branch.go:206-230 | The condition does fail: a concrete run in which a branch forked before its parent was first indexed answers with a document that was never in its log. |
| `Forks.ForkCaptures` | internal/engine/branch.go:61-108 | A fork captures all of its parent, whatever others do between its steps and after them: it forks where the log of the parent ended when it began, with the schema and the epoch of the parent; its first ForkWALSeq positions are for ever the log the parent had, and every upsert to the parent acknowledged before it began lies whole in them. |
| `Progress.UpsertAlone` | internal/engine/namespace.go:106-158 | From any state, however many writers have stopped half way, an upsert left alone writes its batch at the first free position from WALSeq on, moves WALSeq behind it and is acknowledged, if that is among the next 64; otherwise it fails and changes nothing. The document count moves by its documents less its tombstones. |
| `Progress.QueryAlone` | internal/engine/branch.go:154-273 | From any reachable state a query left alone finishes without changing the store, with the log as it stands as its answer (under the condition of QueryIsAtomic): every segment, parent and epoch object it needs is there. It fails if and only if more than 64 forks lie above its namespace. |
| `Progress.BuildAlone` | internal/engine/indexer.go:93-178 | From any reachable state a build left alone, with no other build of the namespace under way and the prefix of its epoch empty, makes the next epoch live, derived from the whole log, with the number of live documents as the document count; no other namespace, segment or epoch changes. |
| `Progress.ReachableFilled` | internal/engine/indexer.go:162-176 | Every epoch any manifest has named holds its docs object, and so does every epoch about to be published. |
| `Schemas.LiveVectorsFit` | internal/engine/namespace.go:156-175 | Over whole runs every vector in the log of a namespace, inherited or its own, has the dimension its manifest names, and so has every live vector. |
| `Schemas.CommittedVectorsFit` | internal/engine/commit.go:197-238 | The same in every run of a group committer over such a store. |
| `ProtocolReads.StepKeeps` | internal/engine/branch.go:154-273 | Every step of every client keeps the protocol invariant, and every advertised log prefix. |
| `ProtocolReads.ReadPartKeeps` | internal/engine/query.go:449-505 | Reading one more object of an epoch, at any moment, keeps the invariant, by which the objects read so far are all of one build. |
| `ProtocolSteps.ForkKeeps` | internal/engine/branch.go:61-108 | Forking keeps the invariant, whatever has happened to the parent since its manifest was read. What the child holds is Forks.ForkCaptures. |
| `ProtocolSteps.AdvanceKeeps` | internal/engine/namespace.go:106-158 | The manifest CAS of an upsert keeps the invariant although other writers may have taken later positions first. |
| `ProtocolSteps.PublishKeeps` | internal/engine/indexer.go:166-176 | The manifest CAS of a build keeps the invariant although the closure assigns the epoch without looking. |
| `Types.OverlayIsFold` | internal/engine/query.go:223-246 | An index snapshot overlaid with the folded tail (tail documents win, tail tombstones hide) is the fold of the whole log. |
| `Types.LastWriterWins` | internal/engine/wal.go:85-106 | After a fold an id is live, with exactly that document, if and only if the last operation on it in the window is not a tombstone; otherwise it is deleted. |
| `Transparency.Build` | internal/engine/indexer.go:145-160 | What the builds of a run computed, one after another, each carried forward from any earlier one or from none, stays correct for the snapshot each of them folded, with an attribute index and a tree grown from the clusters it published. |
| `Transparency.ReadIsOneBuild` | internal/engine/query.go:187-267 | The index objects a finished read used are those of one build of this run. |
| `Transparency.Serve` | internal/engine/query.go:187-267 | A vector query finished in the middle of any interleaving, with the objects of the build it read from: it ranks the matches alive at its manifest read that were last written in the tail or that its plan picked from those objects, and all matches whenever the answer has to be exact; so for a selective filter over indexable fields, at any nProbe. |
| `Transparency.ServeText` | internal/engine/query.go:766-842 | The same for a text query: in the middle of any interleaving its answer is the topK of all documents alive at its manifest read whose text holds a query term and whose attributes pass the filter, scored by the statistics of the build it read from. |
| `Transparency.IndexingIsInvisible` | internal/engine/query.go:187-267 | Two exact answers to one question are equal if nothing was written in between, whatever was indexed, forked or queried meanwhile. |
| `Namespaces.MaterializeLiveAndDeleted` | internal/engine/wal.go:85-106 | The two maps the loop fills are the fold of the window, operation by operation. |
| `Namespaces.Namespace.Upsert` | internal/engine/namespace.go:81-95 | Appends the batch as one segment, unless it is empty or some present vector has the wrong length; the indexed part is untouched. |
| `Namespaces.Namespace.BuildIndex` | internal/engine/indexer.go:93-178 | After any history a build, carried forward from the clusters of the last one or from scratch, publishes an epoch correct and complete for everything written so far: always an attribute index, a tree exactly for two clusters or more. |
| `Namespaces.BuildEpoch` | internal/engine/indexer.go:145-160 | The objects of one epoch agree with each other and with the live documents: clusters, ordinals, buckets, cluster map. The attribute index is always there; the tree is there exactly for two clusters or more, grown from their centroids. |
| `Namespaces.Namespace.RunQuery` | internal/engine/query.go:187-267 | After any history of upserts, tombstones and builds: the hits ranked are the live matches written since the last build or picked from the index by the plan, and they are all matches when nothing is indexed, when every cluster is probed and the 64-bit shortlist limit covers all indexed vectors, or when the plan is filter-first. It is filter-first, for every nProbe, whenever the filter is made of scalar equalities, and, or over fields with some scalar value and not too many distinct ones, and fewer than one indexed document in twenty matches. No answer if and only if the query has the wrong length or the limit came out negative for an index scan. |
| `Namespaces.Namespace.TextQuery` | internal/engine/query.go:766-842 | After any history the answer of a text query is the topK, by falling score and then id, of the live documents whose newest text holds a query term and whose attributes pass the filter, each scored on its newest text; it fails if and only if there is no text field. |
| `Namespaces.TailFold` | internal/engine/query.go:206-246 | The indexed prefix overlaid with the fold of the tail is the fold of everything, wherever the boundary lies. |
| `Query.RunVectorQuery` | internal/engine/query.go:187-267 | No answer if and only if the query has the wrong length, or an index scan meets a negative limit. Otherwise the hits ranked are exactly the live matches, with newest vectors and attributes, that the tail wrote or the plan picked: every matching vector when filter-first, the best-scored of the probed clusters otherwise; and all matches when the scan is full, the plan filter-first, or nothing indexed. Distances never fall along the results, equal ones have rising ids, and whatever is left out is farther, or as far with a higher id. |
| `Query.ExactIsBruteForce` | internal/engine/query.go:187-267 | Whenever all matches are ranked, the answer equals the brute-force answer, order and cut included. |
| `Query.SoundAndFresh` | internal/engine/query.go:223-266 | For every nProbe, prefilter and plan: results are distinct, at most topK, by distance that never falls and then rising id, live now with their newest distance and passing attributes; a match last written in the tail is returned, or topK others are nearer, or as near with a lower id. |
| `Query.SelectiveIsExact` | internal/engine/query.go:343-349 | From the documents and the filter alone: equalities with scalars under any nesting of and / or, over fields with some scalar value and at most 64 distinct ones or at most one for every two documents, matched by fewer than one document in twenty, never panic and are answered exactly whatever nProbe is. |
| `Query.VectorCandidatesFromIndex` | internal/engine/query.go:444-551 | Candidates carry the exact distance and attributes of live vectors. They are the matching vectors and no others when the plan is filter-first, and otherwise what a search-first scan of the probed clusters picks; every match is a candidate when the scan is full. |
| `Query.FilterFirstCandidates` | internal/engine/query.go:645-683 | Scanning only the clusters and ids the bitmap names finds every matching vector and no other, in whatever order the clusters are visited. |
| `Query.SearchFirstCandidates` | internal/engine/query.go:449-550 | With limit = 4*topK in 64-bit arithmetic: the slice panics if and only if there are clusters and limit is negative; otherwise the candidates are exactly the limit best-scored of the members of the clusters that ProbeClusters chose and the plan did not rule out, at exact distance, and all matches when every cluster is probed and nothing is cut. |
| `Query.LimitWraps` | internal/engine/query.go:535-544 | The limit is four times topK exactly for topK below 2^61; at 2^61 it is negative, at 2^62 zero. |
| `Query.NothingKept` | internal/engine/query.go:535-544 | With a limit of zero an index scan keeps no candidate at all. |
| `Query.Shortlist` | internal/engine/query.go:489-530 | The shortlist holds every member of each probed cluster the plan keeps, nothing of any other, each member once, with its own score. |
| `Query.ShortlistBound` | internal/engine/query.go:535-544 | A shortlist is never longer than the number of indexed vectors, so a limit that covers them never cuts it. |
| `Query.OverlayTail` | internal/engine/query.go:227-246 | Laying the tail over the candidates yields candidates of the overlaid live set: newest vectors win, tombstones and vector-less rewrites remove, everything else stays. |
| `Query.CollectHits` | internal/engine/query.go:248-254 | Exactly the candidates that pass the filter, one hit each. |
| `Query.CompiledCount` | internal/engine/query.go:343-349 | The bitmap has exactly as many ordinals as live documents match, so the planner sees the true selectivity. |
| `Query.PlanPrunes` | internal/engine/query.go:326-341 | The clusters a search-first scan is restricted to are exactly those that hold a matching document. |
| `Ranking.TopKUnique` | internal/engine/query.go:256-266 | The topK of a set of hits is one list: no sort, map order or plan can change it. |
| `Ranking.TopKMeans` | internal/engine/query.go:256-266 | A topK list has as many hits as the set and topK allow, without repeats; distances never fall, equal ones have rising ids, and a hit is left out only for topK others that are nearer, or as near with a lower id. |
| `Ranking.RankAndCut` | internal/engine/query.go:256-266 | Sorting and cutting yields the topK of the collected hits in the order TopKMeans spells out on distances and ids. |
| `Ranking.BruteForce` | internal/engine/query.go:223-266 | The reference: every live vector that passes the filter, by distance that never falls and then rising id, and cut. |
| `Sorting.StrLessIs` | internal/engine/query.go:256-261 | One id is before another if and only if it is a proper prefix of it, or has the smaller character where they first differ. |
| `Filters.KeysDecide` | internal/engine/indexer.go:815-827 | Two values share a bucket key if and only if Match takes them for equal. |
| `AttributeIndex.BuildAttributeIndex` | internal/engine/indexer.go:746-807 | An ordinal is in bucket (field, key) if and only if its document carries that value in that non-text field; a field is covered if and only if it has a scalar value and not too many distinct ones; the cluster of each ordinal is where its vector landed, or -1. |
| `AttributeIndex.AssignOrdinals` | internal/engine/indexer.go:700-711 | Each live document gets one dense ordinal, in id order. |
| `Planner.CompileFilter` | internal/engine/query.go:359-411 | Compilation succeeds if and only if the index covers the filter, and then an ordinal is in the bitmap if and only if Match holds of its document. |
| `Planner.CompileAnd` | internal/engine/query.go:378-394 | An intersection of compiled children is the compiled conjunction; it fails with any child, and without children. |
| `Planner.CompileOr` | internal/engine/query.go:395-407 | A union of compiled children is the compiled disjunction; it fails with any child, and without children. |
| `Planner.CompilableIff` | internal/engine/indexer.go:746-807 | The built index covers a filter if and only if, from the documents alone, it is made of scalar equalities under and / or over non-text fields with some scalar value and not too many distinct ones. |
| `Planner.PlanVectorQuery` | internal/engine/query.go:305-351 | There is a plan if and only if the filter is not match-all and the index covers it; its clusters are exactly those holding a matching ordinal, and it is filter-first if and only if fewer than 5% match. |
| `Lire.LireIndex.NearestClusterID` | internal/engine/lire.go:100-114 | The nearest posting outside skip, the lower id on a tie; none if and only if all are skipped. |
| `Lire.LireIndex.InsertNearest` | internal/engine/lire.go:121-138 | The entry joins exactly its nearest posting, or seeds the first one; nothing else changes. |
| `Lire.LireIndex.DropCluster` | internal/engine/lire.go:85-93 | Removes exactly the posting of that id, keeping the order of the rest. |
| `Lire.LireIndex.Split2` | internal/engine/lire.go:212-247 | Succeeds if and only if the posting exists and has two members, identical ones included; it is replaced by two non-empty postings under fresh ids, the sides of a 2-means pass in order, centred on their means. |
| `Lire.LireIndex.SplitOversized` | internal/engine/lire.go:166-198 | For splitCap >= 1 every posting ends at most splitCap long: neither the iteration ceiling nor the indivisible exit ever decides the result. It is a run of splits, each of the first posting over the cap into the two sides of a 2-means pass; no entry is lost, copied or changed, and untouched postings are as before. |
| `Lire.LireIndex.MergeInto` | internal/engine/lire.go:279-291 | One merge: the members move to the nearest other posting, which is recentred, and the victim is gone. |
| `Lire.LireIndex.MergeUnderfull` | internal/engine/lire.go:262-294 | Ends with one posting or every posting at least mergeMin long, by a run of merges, each of the first posting below it into its nearest other; no entry is lost, copied or changed, and untouched postings are as before. |
| `Lire.LireIndex.Reassign` | internal/engine/lire.go:341-478 | Exactly the forced ids and the survivors of Eq. 1 and Eq. 2 are re-checked; each ends in the posting whose centroid was nearest when the call was made (lower id on ties), others stay; each id keeps one copy, and its version rises by one if and only if it changed posting; only changed postings are recentred. |
| `Lire.LireIndex.Recheck` | internal/engine/lire.go:440-468 | Append the higher-version copy, drop the old one: one candidate is settled and no other member disturbed. |
| `Lire.LireIndex.GatherEq1` | internal/engine/lire.go:384-410 | The Eq. 1 candidates of a changed posting, whatever order the postings are visited in. |
| `Lire.LireIndex.GatherEq2` | internal/engine/lire.go:412-433 | The Eq. 2 candidates near a changed centroid, whatever order the postings are visited in. |
| `Lire.LireIndex.NearbyPostings` | internal/engine/lire.go:484-512 | The reassignTopN postings other than the excluded one that rank nearest to the centre; Reassignment.NearbyAreNearest says what that rank means. |
| `Lire.LireIndex.RecenterAll` | internal/engine/indexer.go:448-454 | Every named posting that holds something moves to the mean of its members, whatever order they are visited in, and no other posting moves. |
| `Lire.LireIndex.PruneEmpty` | internal/engine/indexer.go:598-606 | Keeps exactly the non-empty postings, in order. |
| `Lire.LireIndex.Snapshot` | internal/engine/indexer.go:617-644 | Clusters in id order, members in name order (Epoch.SnapshotOrder), and exactly the non-zero versions. |
| `Reassignment.PartitionIsDetermined` | internal/engine/lire.go:341-478 | The partition after a reassign is determined by the working set and the candidate set: map iteration order cannot change which posting, or which version, an id ends with. |
| `Reassignment.NearbyAreNearest` | internal/engine/lire.go:484-512 | No posting left out is nearer than one kept, and none as near has the lower id. |
| `Reassignment.NearbyCount` | internal/engine/lire.go:484-512 | reassignTopN of the other postings are kept, or all of them if there are fewer. |
| `Reassignment.EndsNearest` | internal/engine/lire.go:341-478 | A re-checked member ends, in one copy, in the posting nearest to it (lower id on ties), its version raised if that is another; a member not re-checked stays as it is. |
| `Reassignment.NearestRestored` | internal/engine/lire.go:341-478 | Looking only at the candidates restores nearest-posting assignment: every member of the result sits in the posting nearest to it, if before the pass each was forced, or in a changed posting with the others no nearer than its old centroid, or better off than in any unchanged posting and nearby every changed one. |
| `Reassignment.NearestExactly` | internal/engine/lire.go:341-478 | After the pass every member sits in its nearest posting if and only if every member it did not look at sat there before. |
| `MissedNeighbours.BuildNearestExactly` | internal/engine/indexer.go:448-476 | The reassignment of a build leaves every member in the posting nearest by the centroids it works on if and only if every member that is neither forced nor kept by Eq. 1 was there before: neighbours are never looked at. |
| `MissedNeighbours.LostStaysBehind` | internal/engine/indexer.go:527-530 | It does fail: a concrete reconciled working set in which a member stays in a posting three times as far from it as another. |
| `MissedNeighbours.OneNeighbourFinds` | internal/engine/lire.go:484-512 | With reassignTopN at one that member would be a candidate. |
| `Reassignment.Eq1SkipsHome` | internal/engine/lire.go:384-410 | Skipping by Eq. 1 is sound: a member of a changed posting it leaves out is at home, if each other posting is a worse home or no nearer than the old centroid was. |
| `Reassignment.Eq2SkipsHome` | internal/engine/lire.go:412-433 | Skipping by Eq. 2 is sound: a member of an unchanged posting it leaves out is at home, if that is better than every other unchanged one and nearby every changed one. |
| `IndexBuild.RemoveStale` | internal/engine/indexer.go:402-418 | Exactly the members the live set lacks are dropped, and the ids still present are known. |
| `IndexBuild.RefreshMemberVector` | internal/engine/indexer.go:566-576 | The one member of that id takes the new vector; changed only if it differed; every other entry is as it was. |
| `IndexBuild.ReconcileAll` | internal/engine/indexer.go:427-446 | Afterwards the working set holds exactly the live ids with their live vectors, and every vector not at its earlier position is on the moved list. |
| `IndexBuild.Rebalance` | internal/engine/indexer.go:448-476 | Recentre, split under the cap, merge over the floor, reassign, prune: each stage does its work on the result of the one before, split by split and merge by merge, and no id is lost or doubled on the way. |
| `IndexBuild.IncrementalCluster` | internal/engine/indexer.go:390-480 | For any earlier epoch with unique members: never fails, covers exactly the live vector ids, each in exactly one non-empty cluster; every inserted or moved vector lands in the posting that was nearest. |
| `IndexBuild.FullCluster` | internal/engine/indexer.go:357-370 | round(sqrt(n)) clusters, each exactly the ids one k-means cluster was assigned, covering every id once. |
| `IndexBuild.ClusterLive` | internal/engine/indexer.go:339-350 | Carries forward if and only if a previous epoch with clusters could be read, builds from scratch otherwise; either way covers exactly the live ids. |
| `IndexBuild.BuildVectorIndex` | internal/engine/indexer.go:206-313 | The epoch publishes that clustering: each live vector in exactly one cluster with its newest vector, attributes and version, no cluster empty, none at all if there are no vectors; the cluster map locates every id. |
| `IndexBuild.SplitCap` | internal/engine/indexer.go:486-495 | The cap is never below one, which is what the split pass needs to end. |
| `IndexBuild.MergeMin` | internal/engine/indexer.go:497-506 | The floor is at least one and never above the cap. |
| `IndexBuild.CapAroundAverage` | internal/engine/indexer.go:486-495 | The cap is twice the average length, short of it by less than two. |
| `IndexBuild.FloorAroundAverage` | internal/engine/indexer.go:497-506 | Where the average length is at least two, the floor is half of it, rounded down. |
| `IndexBuild.ChooseK` | internal/engine/vector.go:86-95 | The nearest integer to sqrt(n), at least one. |
| `Epoch.SnapshotCovers` | internal/engine/indexer.go:617-644 | A working set with unique ids and no empty posting is published as lists that hold every id exactly once. |
| `Epoch.SnapshotOrder` | internal/engine/indexer.go:617-644 | The lists come by rising posting id, each with the centroid and exactly the members of its posting, by rising name. |
| `KMeans.KMeans` | internal/engine/vector.go:112-144 | Exactly min(max(k, 1), n) clusters, none empty, for every input. The result is that of Lloyd rounds from the first points (nearest assignment, means, empty clusters reseeded) up to the first round from the second on in which no point moved, or until the iterations are used up. |
| `KMeans.AssignPoints` | internal/engine/vector.go:148-164 | Every point goes to its nearest centroid, the first of them on a tie; changed if and only if some assignment differs. |
| `KMeans.RecomputeCentroids` | internal/engine/vector.go:168-191 | Non-empty clusters move to their mean, empty ones stay. |
| `KMeans.ReseedEmpty` | internal/engine/vector.go:197-226 | No cluster is empty afterwards; the clusters that were empty, one after another, take over the first of the farthest points with company, and nothing else changes; the random fallback is never taken. |
| `KMeans.MeanIsBest` | internal/engine/vector.go:168-191 | The mean is the only value with the least squared error: any other is worse by the number of points times the square of its distance from the mean, in each coordinate. |
| `KMeans.KMeansStops` | internal/engine/vector.go:112-144 | Starts from the first k points, and stops after the iterations asked for, or as soon as a round leaves every point where the last one had it. |
| `KMeans.SpareExists` | internal/engine/vector.go:206-219 | With at least as many points as clusters, an empty cluster leaves some cluster with a point to spare. |
| `KMeans.FarthestSpare` | internal/engine/vector.go:206-219 | The chosen point is the farthest from its centroid among clusters with a spare. |
| `CentroidTree.BuildCentroidTree` | internal/engine/vector.go:295-349 | Terminates; leaves are among the items, and exactly the items for leaf capacity 1 and fan-out at least 2. The root lies at the mean, and level by level the children of a node are the buckets of one k-means run over its items, each routed to by its own centroid of that run. |
| `CentroidTree.BuildTree` | internal/engine/vector.go:399-415 | No tree exactly when it would be one leaf; otherwise it is grown from the centroids as BuildCentroidTree says, and for leaf capacity 1 its leaves are a permutation of [0, K). |
| `CentroidTree.BeamDescend` | internal/engine/vector.go:429-517 | Terminates with exactly min(beam, K) distinct clusters; at each level no node kept is farther than one dropped, and the clusters come out nearest leaf first. |
| `CentroidTree.LevelKeeps` | internal/engine/vector.go:461-491 | One level keeps the frontier on the beam: as wide as the beam, or holding every leaf. |
| `CentroidTree.NewLeaf` | internal/engine/vector.go:356-366 | Routes to the lowest cluster of the bucket. |
| `CentroidTree.NearestClusters` | internal/engine/query.go:736-759 | min(nProbe, K) distinct clusters, and every one of them nearer than every other (lower index on ties). |
| `CentroidTree.ProbeClusters` | internal/engine/query.go:703-724 | Exactly min(nProbe, K) distinct clusters with a tree or without, 64-bit overflow of the beam width included; with a tree the first of the beam, without one the nearest of all. |
| `CentroidTree.AllProbed` | internal/engine/query.go:703-724 | K distinct clusters out of K are all of them. |
| `SmallTrees.SmallTreeIsFlat` | internal/engine/vector.go:399-415 | For two to fan-out many distinct centroids the tree is one level deep and each leaf carries the centroid of its own cluster. |
| `SmallTrees.SmallTreeProbes` | internal/engine/query.go:703-724 | Over such a tree beam descent chooses what the flat scan chooses: each cluster probed is nearer than each that is not, or as near with the lower number. |
| `Bitmaps.Bitmap.Add` | internal/engine/bitmap.go:67-83 | The set gains exactly this id. |
| `Bitmaps.Bitmap.Contains` | internal/engine/bitmap.go:101-108 | Membership. |
| `Bitmaps.Bitmap.Len` | internal/engine/bitmap.go:92-98 | The number of members, from cached cardinalities. |
| `Bitmaps.Bitmap.And` | internal/engine/bitmap.go:186-205 | Intersection. |
| `Bitmaps.Bitmap.Or` | internal/engine/bitmap.go:209-230 | Union, sharing no container with either operand. |
| `Bitmaps.Bitmap.Each` | internal/engine/bitmap.go:176-180 | Visits each member once, ascending. |
| `Bitmaps.Bitmap.ToSorted` | internal/engine/bitmap.go:348-352 | The members as an ascending list. |
| `Bitmaps.FromSorted` | internal/engine/bitmap.go:356-362 | Rebuilds the set from a list in any order; undoes toSorted, and toSorted undoes it on ascending lists. |
| `Bitmaps.Container.Add` | internal/engine/bitmap.go:112-133 | Gains exactly this id, in either representation and across the promotion to dense. |
| `Bitmaps.Container.Contains` | internal/engine/bitmap.go:136-142 | Membership, by binary search or bit test. |
| `Bitmaps.Container.ToDense` | internal/engine/bitmap.go:146-153 | Same members, dense. |
| `Bitmaps.Container.ToArray` | internal/engine/bitmap.go:321-332 | Same members, as a sorted array. |
| `Bitmaps.Container.And` | internal/engine/bitmap.go:237-272 | Intersection for all four pairings of representations; non-empty flag exact. |
| `Bitmaps.Container.Or` | internal/engine/bitmap.go:291-304 | Union for all four pairings, again well formed: sorted, no array over its cap, cached cardinality right. |
| `Bitmaps.Container.Each` | internal/engine/bitmap.go:157-172 | Visits each member once, ascending. |
| `Bitmaps.Container.Clone` | internal/engine/bitmap.go:336-344 | A new container with equal members. |
| `Bitmaps.IntersectArrayDense` | internal/engine/bitmap.go:277-285 | The array members whose bit is set, in order. |
| `Bitmaps.FlattenIs` | internal/engine/bitmap.go:176-180 | Chunk by chunk, the ids of sorted chunks are ascending and are exactly those their chunk holds. |
| `Words.ClearLowest` | internal/engine/bitmap.go:161-165 | word & (word - 1) removes exactly the lowest set bit. |
| `Words.TrailingZerosIs` | internal/engine/bitmap.go:161-165 | The trailing-zero count of a non-zero word is its lowest set bit. |
| `Words.OnesCountIs` | internal/engine/bitmap.go:243-246 | The population count is the number of set bits. |
| `Queue.PickEligible` | internal/engine/queue.go:280-300 | The oldest job that is unclaimed or whose heartbeat is older than the timeout, the first on a tie; none if and only if there is no such job. |
| `Queue.Loaded.ClaimNext` | internal/engine/queue.go:252-265 | The claim closure edits exactly the oldest eligible job, and hands back that job as edited. |
| `Queue.Loaded.Merge1` | cmd/tpuf-broker/main.go:181-198 | One notification adds the namespace's first job or moves its position forward, and reports exactly whether it did. |
| `Queue.Loaded.MergeBatch` | cmd/tpuf-broker/main.go:154-162 | A batch is its notifications in order; it asks for a write if and only if the queue differs. |
| `Queue.Loaded.Refresh` | internal/engine/queue.go:312-321 | The heartbeat closure writes the stamp of this attempt into the one job in progress this worker owns, and nothing else; it asks for no write if and only if there is none. |
| `Queue.Loaded.Remove` | internal/engine/queue.go:337-346 | The completion closure removes only a job this worker owns. |
| `Queue.OneJobPerNamespace` | internal/engine/queue.go:165-191 | After every commit of every run, broker included: at most one job per namespace, and exactly the claimed jobs name a worker. |
| `Queue.ClaimIsExact` | internal/engine/queue.go:244-273 | Over any run a claim returns a job if and only if it committed, and the job returned is the one that was the oldest eligible in the queue it committed against, as the commit left it; no other job changed. |
| `Queue.OwnershipIsSafe` | internal/engine/queue.go:244-273 | Over whole runs a job leaves its owner only by that owner's completion or a claim that found its heartbeat older than the timeout at the claimer's clock. |
| `Queue.OwnershipMoves` | internal/engine/queue.go:310-326 | The same for a single commit of any of the five kinds of edit. |
| `Queue.FormerOwnerIsRefused` | internal/engine/queue.go:335-351 | A former owner's heartbeat or completion writes nothing. |
| `Queue.LinkIsEdit` | internal/engine/queue.go:165-191 | Each committed queue is one edit applied to its predecessor, with Version + 1. |
| `QueueRuns.HeartbeatMoves` | internal/engine/queue.go:310-326 | Over whole runs a committed heartbeat puts the stamp of its attempt into the job of its owner, and changes nothing else. |
| `QueueRuns.CompleteRemoves` | internal/engine/queue.go:335-351 | A committed completion removes exactly the job of its owner. |
| `QueueRuns.EnqueueLands` | internal/engine/queue.go:200-233 | After a committed notification its namespace has a job that reaches the position asked for; positions only move forward, and no other job changes. |
| `QueueRuns.BatchLands` | cmd/tpuf-broker/main.go:154-162 | After a committed batch every namespace named in it has a job that reaches the position asked for, and whatever changed was asked for in the batch. |
| `QueueRuns.TakenOnlyWhenStale` | internal/engine/queue.go:244-273 | Over whole runs, if a claim by another worker takes an owned job, the last claim or heartbeat of that ownership has a stamp older than the claimer's clock less the timeout. |
| `QueueRuns.NoFreshStamp` | internal/engine/queue.go:244-273 | And so has every earlier one, if the stamps of that ownership do not decrease. |
| `Committer.StepKeepsInv` | internal/engine/commit.go:184-189 | Every step of callers, loop and Close keeps the invariant, store errors at any point of a commit included. |
| `Committer.JoinsOneFlush` | internal/engine/commit.go:197-238 | Each write the inbox took is in exactly one flush, at one place, or in the batch being put together. |
| `Committer.OneResultEach` | internal/engine/commit.go:235-237 | No write is answered twice, and every answer is the outcome its whole batch shares. |
| `Committer.SuccessIsDurable` | internal/engine/commit.go:197-238 | Committing a batch is a run of one protocol client among any others. Once a flush has succeeded, in every later state: a segment below WALSeq holds the merged batch and nothing else, the log of the namespace runs through it, and each write sits in it as one piece, in arrival order. |
| `Committer.ClosedMeansAnswered` | internal/engine/commit.go:250-258 | Once Close returns every accepted write has been answered and none is accepted again. |
| `Committer.NeverSendsOnClosed` | internal/engine/commit.go:127-167 | No caller ever sends on the closed inbox. |
| `Committer.BatchesAreCapped` | internal/engine/commit.go:205-219 | Without its last write a batch is below the document cap. |
| `Committer.Drain` | internal/engine/commit.go:198-219 | Takes waiting writes in order until the cap is reached or nothing waits. |
| `Committer.NeverStuck` | internal/engine/commit.go:184-189 | No deadlock: in any reachable state where neither a caller, the loop nor Close has a step left to take, every accepted write has been answered, every caller is through, the lock is free, and the loop waits for more or, if the inbox is closed, has exited. |
| `Cache.Store.GetCached` | internal/cache/cache.go:198-243 | Whatever is answered is the backend's body, and then in memory; a miss only if the backend failed. A key in memory, or in the readable ring, is answered from there; a body fetched from the backend is in the ring if the write succeeds. Memory holds exactly the capacity most recently used keys. The call is a run of the steps of one reader in the machine of Cache.EveryAnswerIsRight, from the tiers before to the tiers after. |
| `Cache.Store.LookList` | internal/cache/cache.go:199-208 | Answers if and only if the list holds the key, with its body, which moves to the front. |
| `Cache.Store.PutDisk` | internal/cache/cache.go:233-238 | Storing the fetched body is the two steps of writing it into the ring and letting one other key go; without errors the ring then holds it. |
| `Cache.Store.InsertLocked` | internal/cache/cache.go:247-263 | Adds or refreshes at the front and drops exactly the least recently used key over capacity. |
| `Cache.EveryAnswerIsRight` | internal/cache/cache.go:198-243 | For write-once keys, under any interleaving of lookups, fetches, inserts and evictions by any readers, every answer is the backend's body. |
| `Cache.HeldIff` | internal/cache/cache.go:247-263 | Least recently used, from the uses alone: a key is held if and only if fewer than capacity other keys have been used since its last use. |
| `Nvme.NvmeRing.constructor` | internal/cache/nvme.go:81-135 | Opening over any right slot files and any persisted index yields a ring in which every entry reads right or misses; an index of another shape is ignored. |
| `Nvme.NvmeRing.Load` | internal/cache/nvme.go:110-135 | An index of the same shape is adopted slot by slot. |
| `Nvme.NvmeRing.Get` | internal/cache/nvme.go:167-193 | A hit is always the right body; without I/O errors it hits if and only if the key is among the last capacity puts. |
| `Nvme.NvmeRing.Put` | internal/cache/nvme.go:201-234 | Without I/O errors the ring then holds exactly the keys of its last capacity puts, and what it persisted reopens as this ring; on any ring every entry still reads right or misses. |
| `Nvme.Reopen` | internal/cache/nvme.go:81-135 | After a restart over the index its last put saved and the slot files of then, the ring again holds exactly the keys of its last capacity puts. |
| `Nvme.KeptIsWindow` | internal/cache/nvme.go:201-234 | Overwriting round and round, blanking a key's earlier slot, keeps exactly the keys of the last capacity puts. |
| `Bm25.BuildBM25` | internal/engine/bm25.go:51-87 | For every term the postings are exactly the documents holding it with their counts, sorted by id; lengths, N and the mean length are those of the texts. |
| `Bm25.Score` | internal/engine/bm25.go:94-107 | Scores exactly the documents holding a query term, each with its text's score, repeated query terms counted. |
| `Bm25.ScoreDoc` | internal/engine/bm25.go:114-133 | The text's score against the index statistics, without the postings. |
| `Bm25.FastIsSimple` | internal/engine/bm25.go:94-107 | Through the postings or directly, a document scores the same, and it is absent exactly when its direct score is zero. |
| `Bm25.ScoreSign` | internal/engine/bm25.go:138-140 | A score is never negative, and positive if and only if some query term occurs. |
| `Bm25.StatisticsAre` | internal/engine/bm25.go:51-87 | A term's document frequency is the number of texts that hold it, and the mean length times the number of texts is their total length. |
| `Bm25.ScoreAdds` | internal/engine/bm25.go:114-133 | The score for a query is the sum over any split of its terms, repeated terms again. |
| `Bm25.MoreOccurrences` | internal/engine/bm25.go:146-153 | More occurrences in a text of the same length score strictly higher, and always below 2.2 times the idf. |
| `Bm25.LongerText` | internal/engine/bm25.go:146-153 | As many occurrences in a longer text score strictly lower. |
| `Bm25.RarerTerm` | internal/engine/bm25.go:138-140 | A term in fewer documents weighs strictly more and scores strictly higher in the same text. |
| `Bm25.TermScoreIs` | internal/engine/bm25.go:146-153 | Cleared of fractions: the score times (tf + 0.3 + 0.9 times the length over the mean length) is 2.2 idf tf. |
| `TextQueries.TextCandidates` | internal/engine/query.go:771-821 | Indexed scores under the tail are exactly the live documents whose newest text holds a query term, scored on that text, with their newest attributes. |
| `TextQueries.RunBM25Query` | internal/engine/query.go:766-842 | The topK of those candidates that pass the filter; scores never rise, equal ones have rising ids, and whatever is left out scores lower, or as high with a higher id. An error if and only if there is no text field. |
| `TextQueries.TextFound` | internal/engine/query.go:766-842 | A live document whose field holds a text is a match if and only if the text holds a query term and its attributes pass the filter. |
| `Rabitq.RotationMoves` | internal/engine/vector.go:670-680 | Rotating one side of an inner product is inverse-rotating the other, for any square matrix. |
| `Rabitq.EncodeRaBitQ` | internal/engine/vector.go:704-752 | The code's bits are the signs of the rotated unit residual, and the de-bias scalar, the inner product of the rebuilt code with the unit residual, is the sum of its absolute rotated coordinates over sqrt(D), so never negative. |
| `Rabitq.EncodeQuery` | internal/engine/vector.go:778-847 | Every level fits in 4 bits and lies within one Width of the rotated coordinate; Lower is the least coordinate and Lower + 15 Width the greatest; planes and sum agree with the levels; a query equal to the centroid encodes to zeros. |
| `Rabitq.FormulaIsSum` | internal/engine/vector.go:885-893 | The popcount formula equals the sum of xbar[i] * (Lower + Width * level[i]), exactly. |
| `Rabitq.PlanesAreDot` | internal/engine/vector.go:874-883 | Weighted popcounts of the four planes are the sum of the levels under set bits. |
| `Rabitq.WithinRoot` | internal/engine/vector.go:861-896 | That sum is within sqrt(D) * Width of the inner product with the unquantized rotated query. |
| `Rabitq.EstimateInnerProduct` | internal/engine/vector.go:861-896 | The estimate is that sum divided by the de-bias scalar (zero if the scalar is zero), with both facts above. |
| `Rabitq.EstimateOfResidual` | internal/engine/vector.go:861-896 | Times the de-bias scalar the estimate is within sqrt(D) * Width of the inner product of the rebuilt code (the rotated codebook vector) with the unit query residual as it was before the rotation. |

## Left out

- HTTP servers, command lines, the benchmark, the S3 client and deployment scripts: input, output and presentation.
- JSON encoding is the identity, SHA-256 is injective, partial file writes and timeouts are failures that may happen at any step.
- Float rounding: all arithmetic is over the reals. Random draws are parameters.
- Key families (manifests, segments, index objects) are separate stores, so a namespace name containing a slash is not modelled.
- Ordinals and container keys are unbounded naturals in place of 32 and 16 bits.
- The attribute index collects its buckets as sets per field and value before listing them in order; the bitmap objects are used from decoding on.
- The LRU list and the ring slots are sequences in place of a linked list and an array; the order of elements is the same, pointer aliasing is not modelled.
- Nearest-assignment and the length cap of a *published* incremental epoch: not promised, since postings are recentred after the moves and merge and reassign follow the last split.
- The Boolean results of heartbeat, completion and enqueue: the flags are not reset between retries, so only the queue itself is described.
- Loss of reindex notifications: a bump of a job in progress disappears with its completion, by design.
- Agreement of beam descent with the flat scan for trees deeper than one level: `CentroidTree.BeamDescend` states what each level keeps, and `SmallTrees.SmallTreeProbes` the agreement for one level.
- Hybrid rank fusion, cache hit rates, `QueueSnapshot` and `PrefilterShortlist`: they add only easy members.
- The one-bit residual code with its Hamming score, and the sampling of the rotation: the query model holds for any prefilter score and the encoder for any square matrix.
- `EstimateDistance`: a metric-specific combination of the estimate with the two norms; it only feeds the prefilter score.
- Transparency.Serve: one build's computation and the reading of its objects are joined by the build's number; that each build of the run computed what Transparency.Build ensures is its premise, and that of Transparency.ServeText.
