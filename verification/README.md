# Synthy's incremental indexing protocol, in Dafny

Synthy keeps a queryable index of Git repositories: files, symbols, code chunks, a call graph and an import graph in
PostgreSQL, and one vector per chunk in a vector store. A push reaches it as a queued message; a single consumer
clones the head of the branch, and either rebuilds the whole index or only the files the push mentions. Every new
chunk is announced on a fanout exchange, where an embedding worker and a summary worker pick it up and write one
column each, concurrently with later runs. This project models that protocol and proves what it keeps.

## How the model is built

Bottom up, one module per file:

- `Base`, `Paths`: ids, options, repo-relative and absolute paths.
- `PushFold`, `PushCover`: the fold of a push's commits into a changed and a removed list, and what the lists are worth.
- `SourceTree`, `Symbols`, `Definitions`, `Calls`, `Imports`, `Chunker`, `Placement`: a repository as syntax trees with
  resolved names, the four extractions from it, what each of them finds in a tree, and which symbol the chunk of a
  declaration ends up with. The walks are loops over the pre-order of a tree, as `ast.Inspect` visits it.
- `Tables`: the relational store as a value, with its constraints and `ON DELETE CASCADE`.
- `Backends`: the stores as one object. Every call may fail, and a budget decides at which call failures begin, so that
  a run can stop after any prefix of its writes. Before every call the workers may write chunk columns.
- `Index`: what it means for the tables to hold the index of a tree, path by path and up to row ids.
- `Stored`: the rows of a clean index against the declarations of the tree, in both directions.
- `Vectors`, `Discards`, `FileRows`, `Rebuild`, `Chunking`, `Runs`, `Pipeline`: the pipeline as methods over the stores.
- `Messages`, `Controller`: the repository record, the choice of the path, and the handling of one message.
- `Refinement`, `Replay`, `Isolation`, `Edges`, `Copies`, `Protocol`, `FirstIndex`, `HeadGraph`: theorems over runs, chains
  of runs and whole histories of pushes, deliveries and crashes, resting on the contracts.
- `Announcing`: the chunks of settled paths, from the push to the workers' queues.
- `Examples`, `RedeliveryExamples`, `GraphExample`: the smallest stores and histories in which the program does what its
  comments and callers do not expect, run by run.
- `Workers`, `WorkerLoop`, `WorkerView`: both workers, the discards and the inserts as a transition system with
  inductive invariants; the two handlers as sequences of its steps; the writes of the stores as its steps.
- `Retrieval`: from nearest vectors to chunks, and the memoised context against the direct one.

The contract of a run has two layers. `Runs.Effect` holds wherever the run stops: files were discarded and added at the
paths in question only, every constraint holds, and only vectors of discarded files were deleted; `Runs.EdgesInserted`
says what the run had inserted into the edge tables by then. `Pipeline.PushApplied` and `Index.FullIndex` hold when it
succeeds. The steps of `Protocol` are runs and successes in exactly this sense. `Controller.Handle` says what both layers
mean for one message in the fields of that message.

## What is assumed

- Fresh ids never collide: row ids come from a counter, and a vector id is never drawn twice.
- The package loader reports the built Go files of the clone, each once, each with its own syntax, and no object is
  defined in two files (`SourceTree.LoadsFiles`).
- The symbols and chunks of a file depend on that file alone (`Index.SameYield`). Where its calls lead may change with
  other files, and nothing is assumed about that.
- Paths from webhooks are clean and relative. The commits of a push describe it (`PushCover.Describes`), and messages
  arrive in the order of the pushes.
- A store call that returns an error has not taken effect. Inserts of symbols, chunks and edges are transactions.
- The embedding and summary of a text, the tokens, the clone and the ranking of vectors are arbitrary.

## What the code does where its comments say otherwise

- `buildEdges` says it rebuilds the graph from scratch; it only inserts. `Copies.CopiesAddUp`, `Copies.EdgeMultiplicity`
  and `Copies.ImportMultiplicity` count the copies over any chain of runs, stopped ones included,
  `Edges.ExactIffNothingSpared` says exactly when a run leaves none too many, `Examples.DoubledEdgeExample` is a recursive
  function whose edge a second run doubles, and `Edges.DeletingEdgesFirst` says what deleting the repository's edges first
  would give.
- The baseline test asks for a repository record, not for a completed index. `Refinement.IncrementalMakesFullIff` says
  exactly which trees an incremental run then makes the index of; `Examples.UnknownExample` holds a successful one whose
  result is not the full index.
- An incremental message can therefore be redelivered to an index that its first delivery emptied or only recorded, and
  every file it does not name stays missing. `Replay.MessageReplay` says when redelivery is harmless for files, symbols
  and chunks: the message asks for a full run, or there is a record and no absolute path, or the message names as changed
  everything the clone holds. `Replay.ReplayDiffers` shows for all other inputs a stop after which no successful
  redelivery equals a run that was not interrupted; `Examples.UnknownExample` and `Examples.AbsoluteExample` are its two
  smallest cases, `RedeliveryExamples.HarmlessExample` one where redelivery does no harm.
- The edge tables are the exception: what a stopped run inserted stays, and a redelivery inserts it again.
  `Copies.RedeliveryCopies` and `Copies.RedeliveryImports` say by how many copies an edge between unmentioned files is then
  ahead of an uninterrupted run, so exactly when by none; `Copies.RebuiltExactly` that all other edges are exact;
  `RedeliveryExamples.ExtraCopyExample` is a redelivery that ends with three copies instead of two.
- A push that touches no Go file rebuilds nothing, but may change where calls lead. `HeadGraph.HeadHasEdges` says when the
  calls of the head have their edges, and `GraphExample.StaleGraphExample` is a drained history after which one has not.
- The caller of a call is the last function declared before it, not the enclosing one. `Calls.CallerIsEnclosing` says
  exactly when the two agree, and `Calls.StrayExample` is a file where they do not.
- Folding two pushes is not always overriding one fold by the other, because a push without commits falls back to its
  head commit. `PushFold.CompositionIff` says exactly when it is: both pushes have commits; or only the second has, or
  neither, and it mentions all that the first mentions; or only the first has, and agrees with the second on all that
  the second mentions.
- External ids are unique because of how records are created, not because of the schema.

## Model

| member | source | states |
|---|---|---|
| Paths.RelToUndoesJoin | internal/core/file/service.go:113-121 | A file inside the clone is stored under exactly the repo-relative path a webhook reports for it, whatever the clone's directory |
| Paths.IsGoMeansSuffix | internal/usecase/analysis/analysisPipeline.go:380-389 | The extension test accepts a path exactly when its last segment ends in .go |
| Paths.GoFiles | internal/usecase/analysis/analysisPipeline.go:380-389 | The loop keeps exactly the Go paths, in order |
| PushFold.NetFileChanges | internal/core/repository/ingestionMapper.go:72-114 | A path is in the removed list exactly when the last commit that lists it removes it, and in the changed list exactly when that commit adds or modifies it without removing it; a push without commits counts for its head commit |
| PushFold.NetLists | internal/core/repository/ingestionMapper.go:68-114 | Changed and removed are disjoint and duplicate-free, hold exactly the paths the commits list, each in the order of first listing: commit by commit added, modified, removed |
| PushFold.NetEqualsReplay | internal/core/repository/ingestionMapper.go:68-114 | Applying the two lists to any set of paths gives what adding, modifying and removing commit by commit gives |
| PushFold.PushComposition | internal/core/repository/ingestionMapper.go:72-104 | The fold of two pushes joined is the fold of the first overridden by that of the second, as path-to-state maps |
| PushFold.CompositionIff | internal/core/repository/ingestionMapper.go:72-104 | For all pushes, exactly when the fold of two joined is the first overridden by the second: both have commits, or what the join forgets of a head commit is overridden or agrees anyway |
| PushFold.CompositionNeedsCommits | internal/core/repository/ingestionMapper.go:73-76 | Two pushes without commits, for which the composition law fails because of the head-commit fallback |
| PushCover.NetCoversPush | internal/core/repository/ingestionMapper.go:33-51 | For commits that describe a push, the message's lists mention every Go file whose rows differ and remove only files that are gone; where calls of other files lead may change freely |
| Symbols.ExtractFile | internal/core/symbol/service.go:59-109 | The walk over one file, started with whatever earlier files left in the seen set, emits the symbols that file has on its own |
| Symbols.Extract | internal/core/symbol/service.go:46-114 | The symbols of every file of the map, and no others, are those of its own source, with increasing fresh ids |
| Symbols.ScanLocal | internal/core/symbol/service.go:48-72 | The seen set carried between files never changes what a file yields, as long as no object is defined in two files |
| Definitions.SymbolsOfTree | internal/core/symbol/service.go:57-110 | The symbols of a source, read off its tree: in walk order a function under its full name, a type or an interface by its shape, a constant or a variable by the declaration around it, with lines and detail, blank names left out, each object once, and no others |
| Symbols.ToFqNameMap | internal/core/symbol/service.go:37-44 | Each name is sent to the last symbol of the list that bears it, and only names of the list are present |
| Symbols.SymbolsForFile | internal/usecase/analysis/analysisPipeline.go:391-399 | Selects exactly the symbols of the file, in order |
| Calls.InspectFile | internal/core/calls/service.go:50-113 | The walk with one carried caller yields the edges of the declarative pairs of the file: each resolved call with the latest resolved declaration at or before it |
| Calls.PairsInOrder | internal/core/calls/service.go:50-110 | The pairs of a file are its resolved calls in walk order, each charged to the last function declared before it; no other call has one |
| Calls.Build | internal/core/calls/service.go:37-118 | The edges of the whole repository are those of its files, file by file in load order |
| Calls.AllEdgesInMaps | internal/core/calls/service.go:37-38 | Both ends of every edge are in the symbol map and its file is in the file map |
| Calls.CallerIsEnclosing | internal/core/calls/service.go:50-59 | The carried caller is the enclosing function for every call of a file if and only if no call outside a resolved function follows a resolved function |
| Calls.StrayExample | internal/core/calls/service.go:50-64 | A concrete file whose package variable's initialiser is recorded as called by an unrelated function |
| Calls.CountInBuild | internal/core/calls/service.go:89-110 | A build yields an edge once for each call in the source of its file between the two names, whatever the rest of the repository |
| Imports.Build | internal/core/imports/service.go:35-97 | One edge for each import whose package has an indexed file, to the first such file |
| Imports.FirstIndexedIs | internal/core/imports/service.go:60-75 | An import points at the first file of its package that is indexed |
| Imports.AllEdgesInMap | internal/core/imports/service.go:35-37 | Both ends of every import edge are indexed files |
| Imports.CountInBuild | internal/core/imports/service.go:50-93 | A build yields an import edge once for each import of its file with that path and alias, if the first indexed file of the package is the one it points at, and never otherwise |
| Chunker.Build | internal/core/chunker/service.go:21-77 | For a file that parses, the text and lines of every function, struct and interface the walk visits, in walk order, and nothing else; the whole file if there is none of these; otherwise an error |
| Chunker.MatchSymbol | internal/core/chunker/service.go:152-160 | Returns the first symbol whose range covers the lines, and none exactly when no range covers them |
| Chunker.Assemble | internal/core/chunker/service.go:100-131 | The saved chunks are the raw chunks that hold more than white space and have a symbol around them, in order, each given to the first such symbol, with fresh ids; the others are dropped |
| Chunker.FirstMatchIsOutermost | internal/core/chunker/service.go:152-160 | With nested-or-disjoint ranges in pre-order, first match is the outermost symbol containing the chunk |
| Chunker.DeclarationChunkKept | internal/core/chunker/service.go:102-114 | No non-blank chunk of a declaration that yielded a symbol is dropped: it is kept with a symbol whose lines cover it |
| Placement.SymbolsNest | internal/core/symbol/service.go:59-109 | For a source laid out in order, each declaration of several lines beginning on a line of its own, the line ranges of the extracted symbols are nested or disjoint, in that order |
| Placement.ChunkGoesOutermost | internal/core/chunker/service.go:152-160 | In such a source every kept chunk is given to the outermost symbol around it |
| Placement.DeclarationOwnsChunk | internal/core/chunker/service.go:102-131 | The chunk of a function or type that no other declaration covers is kept and given to the symbol of that declaration, name, kind and lines |
| Placement.FunctionIndexed | internal/core/chunker/service.go:48-62 | Every function that no other declaration covers is planned with its own text, as a function chunk, under the symbol with its full name, lines and detail |
| Placement.TypeIndexed | internal/core/chunker/service.go:52-60 | Every struct and interface that no other declaration covers is planned with its own text, as a type chunk, under the symbol with its name, kind, lines and detail |
| Stored.FunctionStored | internal/core/chunker/service.go:100-147 | In a clean index such a function has a symbol row under its full name and a chunk row with its text that points at it, both below the row of its file |
| Stored.TypeStored | internal/core/chunker/service.go:52-60 | The same for structs and interfaces |
| Stored.SymbolStored | internal/core/symbol/service.go:59-110 | In a clean index every identifier that yields a symbol, constants and variables among them, has its symbol row |
| Stored.SymbolFromTree | internal/core/symbol/service.go:59-110 | And every symbol row of a file is that of an identifier of its source |
| Stored.ChunkFromTree | internal/core/chunker/service.go:102-131 | And every chunk row of a file holds text of a declaration or of the whole file, not blank, and points at a symbol row of that file around it |
| Tables.DeleteKeepsSound | internal/infra/psql/migrations/00001_init.up.sql:97-188 | The cascade of a file delete leaves no dangling reference in any table |
| Tables.DeleteTwice | internal/infra/psql/migrations/00001_init.up.sql:97-188 | Deleting file by file is deleting the set of files, in all five tables |
| Tables.KeepCallsCount | internal/infra/psql/migrations/00001_init.up.sql:138-151 | The cascade keeps every copy of an edge whose file and both ends stay, and no copy of any other |
| Backends.Backend.InsertFile | internal/infra/psql/fileRepository.go:20-30 | A row is added, or refused only for a duplicate id, an unknown repository or a path already taken |
| Backends.Backend.DeleteFileByID | internal/infra/psql/fileRepository.go:85-89 | The row goes with everything that references it; an unknown id changes nothing |
| Backends.Backend.DeleteFilesByRepositoryID | internal/infra/psql/fileRepository.go:79-83 | All files of the repository go with everything that references them |
| Backends.Backend.InsertChunks | internal/infra/psql/chunkRepository.go:22-53 | All rows or none; refused only for a repeated id, or a file, symbol or repository that is not there |
| Backends.Backend.InsertSymbols | internal/infra/psql/symbolRepository.go:21-52 | All rows or none; refused only for a repeated id, or a file or repository that is not there |
| Backends.Backend.UpdateRepository | internal/infra/psql/repositoryRepository.go:75-92 | Name, branch, url, storage and provider are refreshed, organization and external id stay as they were, and no other record changes |
| Index.CleanIsUnique | internal/usecase/analysis/analysisPipeline.go:167-205 | What a tree asks for at a path determines the rows there up to a renaming of ids |
| Index.ListedFrame | internal/usecase/analysis/analysisPipeline.go:242-265 | A file that is not discarded is listed by the same file, symbol and chunk ids before and after |
| Index.CleanFrame | internal/usecase/analysis/analysisPipeline.go:242-265 | At every stage a path the run is not about stays as clean as it was, for any tree |
| Index.SameYieldClean | internal/usecase/analysis/analysisPipeline.go:313-366 | Trees whose files at a path yield the same symbols and chunks ask for the same rows there, wherever the calls of those files lead |
| Vectors.BatchesPartition | internal/usecase/analysis/vectors.go:54-59 | The first k batches concatenate to the first min(1000k, n) ids in order, all ceil(n/1000) of them to the whole list |
| Vectors.DeleteVectorsForChunks | internal/usecase/analysis/vectors.go:34-64 | Batches of 1 to 1000 ids are sent in order; failure at batch k leaves exactly the first 1000k ids deleted, success is one set subtraction |
| Discards.DiscardScope | internal/usecase/analysis/analysisPipeline.go:169-182 | Vectors, then rows: only vectors of the discarded chunks go, all of them go before a row does, and a failure leaves the rows |
| Discards.DiscardTouched | internal/usecase/analysis/analysisPipeline.go:250-265 | The rows at the given paths go and leave the path index; a failure leaves at most one file cleaned but not deleted |
| FileRows.ProcessFiles | internal/core/file/service.go:44-111 | Exactly the loaded files that are selected get one row each under their repo-relative path, and no constraint is broken, wherever it stops |
| Rebuild.ExtractAndSave | internal/core/symbol/service.go:25-35 | Each new file has exactly the symbols of its source as rows, no insert violates a foreign key, and nothing else changed |
| Rebuild.BuildEdges | internal/usecase/analysis/analysisPipeline.go:313-333 | The edge tables are the old ones with a whole-repository build behind; after a failure they have its call edges or nothing behind, and never a part; no insert violates a foreign key |
| Chunking.ChunkAndPublish | internal/usecase/analysis/analysisPipeline.go:335-366 | Each new file has exactly its planned chunks, each with the right symbol row; wherever it stops, what was published since are chunks that are new, each once, and on success all of them |
| Chunking.PublishAll | internal/usecase/analysis/analysisPipeline.go:350-361 | The chunks of a file are announced in order, each once; a failure leaves a prefix announced |
| Runs.RebuiltClean | internal/usecase/analysis/analysisPipeline.go:273-310 | A selected path without rows ends as the clone has it: its file's rows if it is built, no row otherwise |
| Pipeline.ProcessFull | internal/usecase/analysis/analysisPipeline.go:167-205 | Wherever it stops, the effect stays within the repository, every constraint holds, and each new chunk was published at most once and nothing else was; on success the index is the full index of the clone and all new chunks were published; a store is to blame for a failure only once it has begun to fail |
| Pipeline.ProcessIncremental | internal/usecase/analysis/analysisPipeline.go:207-311 | Wherever it stops, only rows at the mentioned Go paths changed, every constraint holds, and each new chunk was published at most once and nothing else was; on success changed paths are as the clone has them, removed ones have no row and all new chunks were published; with absolute paths in the index it is a full run |
| Pipeline.RebuildTouched | internal/usecase/analysis/analysisPipeline.go:267-310 | The part of it after the discards: changed paths end as the clone has them, the edges are those of the merged repository, and every new chunk is published once |
| Pipeline.MergedFileMap | internal/usecase/analysis/analysisPipeline.go:291-299 | Survivors and new files merged cover exactly the files of the repository, so that edges span all of it |
| Messages.UpsertRepositoryRecord | internal/usecase/analysis/analysisPipeline.go:113-165 | The record with the external id keeps its id and organization and takes name, url, branch ("main" if empty), provider ("OTHER" if empty) and storage from the message; without one, one is created for the organization of the message; no other record changes |
| Messages.ProcessRepository | internal/usecase/analysis/analysisPipeline.go:84-111 | The whole of a message: identity kept, effect within one repository at any stop, new rows only for files of the clone, the first index always full, a full run discards all files or none, and edges are inserted as a whole build, as its call edges, or not at all |
| Controller.Handle | internal/interface/mq/repositoryEventController.go:62-118 | A message that belongs to no organization or cannot be cloned leaves the stores untouched. Any other is a run for its own or its installation's organization, and in the fields of the message: acknowledged, the record is refreshed from it, its changed Go paths are as the clone has them and its removed ones gone, or the index is full; wherever it stopped, no other file lost or gained a row, no row went before its vectors, and each new chunk was published at most once, all of them if acknowledged; it fails only for a cause, and a file to be indexed that does not parse is one |
| Controller.FirstIndexBelongs | internal/interface/mq/repositoryEventController.go:77-95 | A first index records the repository for the organization the message belongs to |
| Refinement.AppliedByContract | internal/usecase/analysis/analysisPipeline.go:207-311 | Any run the incremental contract allows is confined to the mentioned paths, and a successful one is the applied run the next theorems speak of |
| Refinement.IncrementalRefinesFull | internal/usecase/analysis/analysisPipeline.go:207-311 | From the full index of the old tree, with lists that mention every file whose symbols or chunks differ, an incremental run leaves what a full run on the new tree leaves, up to ids, and every untouched file keeps its very rows |
| Refinement.IncrementalMakesFullIff | internal/usecase/analysis/analysisPipeline.go:100-110 | Without a baseline: the result is the full index of the clone if and only if unmentioned paths already were as the clone has them and no path listed as removed is in it |
| Refinement.UntouchedRows | internal/usecase/analysis/analysisPipeline.go:84-88 | At every prefix of a run, a file it was not asked about keeps its row, its symbols and its chunks with ids and embeddings, except for what a worker wrote |
| Refinement.CrashReplay | internal/usecase/analysis/analysisPipeline.go:252-310 | Where the record is known and no absolute path is left: as to files, symbols and chunks, an incremental run interrupted anywhere and run again for the same message ends like an uninterrupted one, with the very rows and their ids at unmentioned paths, the same up to ids elsewhere; the edge tables are the subject of Copies.RedeliveryCopies |
| Replay.MessageReplay | internal/usecase/analysis/analysisPipeline.go:84-111 | For every message, full or incremental, record known or not, wherever the first delivery stopped: a successful redelivery leaves at every path the files, symbols and chunks an uninterrupted run leaves, if the message asks for a full run, or there is a record and no absolute path, or the message names as changed all the clone holds |
| Replay.ReplayDiffers | internal/usecase/analysis/analysisPipeline.go:225-235 | In every other case there is a stop after which each successful redelivery, if any succeeds at all, leaves an index that is not full and lacks a given file, while each uninterrupted run that succeeds leaves the full one |
| Replay.StopsEmptied | internal/usecase/analysis/analysisPipeline.go:167-182 | Such a stop: the record is there and every old file is gone |
| Examples.UnknownExample | internal/usecase/analysis/analysisPipeline.go:89-110 | An unknown repository and a push that touches no Go file: stopped once the record is inserted, redelivered to an empty index, against the full index of an uninterrupted run |
| Examples.AbsoluteExample | internal/usecase/analysis/analysisPipeline.go:225-235 | The same for an index under absolute paths, stopped once they are deleted |
| RedeliveryExamples.HarmlessExample | internal/usecase/analysis/analysisPipeline.go:252-310 | A changed file whose first delivery stops once it is deleted: the redelivery indexes it anew and ends as an uninterrupted run, edge included |
| RedeliveryExamples.ExtraCopyExample | internal/usecase/analysis/analysisPipeline.go:313-333 | A first delivery that stops after its inserts: after redelivery every file, symbol and chunk is alike, and the edge is there three times instead of twice |
| Isolation.OtherRepositories | internal/usecase/analysis/analysisPipeline.go:169-265 | Wherever a run stops, every row of every other repository, and the number of copies of each of its edges, is as before |
| Isolation.OtherVectors | internal/usecase/analysis/vectors.go:16-64 | With injective embedding ids a run deletes no vector of another repository's chunk |
| Isolation.IdentityOverRuns | internal/usecase/analysis/analysisPipeline.go:113-165 | Over any sequence of runs for any messages, each stopped anywhere, with worker writes in between, an external id keeps the one record it first got, and that record its organization |
| Edges.EdgesAfterRun | internal/usecase/analysis/analysisPipeline.go:291-333 | As multisets, both edge tables are the survivors of the cascade plus the build |
| Edges.OneMoreRun | internal/usecase/analysis/analysisPipeline.go:291-333 | A successful run adds to the count of an edge between symbols alone in bearing their names the number of such calls in the source of its file, none if the clone has no such file, to what the cascade spared |
| Edges.EdgeCoverage | internal/usecase/analysis/analysisPipeline.go:215-218 | Every call between two names that some symbol rows bear has an edge between bearers of these names after a successful run, however many bear them |
| Copies.AddsAllOrNone | internal/usecase/analysis/analysisPipeline.go:313-333 | Wherever a run stops, it has inserted an edge as often as its call stands in the source it works on, or not at all |
| Copies.CopiesAddUp | internal/usecase/analysis/analysisPipeline.go:313-333 | Over any chain of runs, each stopped anywhere, of worker writes and of runs of other repositories, the copies of an edge no run discards add up to those there were and those each run had inserted when it stopped, in both tables |
| Copies.EdgeMultiplicity | internal/usecase/analysis/analysisPipeline.go:313-333 | On sources that hold the call m times every run that got to its inserts, finished or not, adds exactly m copies |
| Edges.OneMoreImport | internal/usecase/analysis/analysisPipeline.go:313-333 | A successful run adds to an import edge's count the number of imports of its file with that path and alias that lead to its target, to what the cascade spared |
| Edges.ImportCoverage | internal/usecase/analysis/analysisPipeline.go:215-218 | Every import of a package with an indexed file has its edge, to the first such file, after a successful run |
| Copies.ImportMultiplicity | internal/usecase/analysis/analysisPipeline.go:313-333 | The same for import edges |
| Copies.RedeliveryCopies | internal/usecase/analysis/analysisPipeline.go:84-111 | After a redelivery an edge between unmentioned files is there as often as after an uninterrupted run plus the copies the stopped run had inserted: as often if and only if it had inserted none |
| Copies.RedeliveryImports | internal/usecase/analysis/analysisPipeline.go:84-111 | The same for import edges, whose targets are the same in both |
| Copies.RebuiltExactly | internal/usecase/analysis/analysisPipeline.go:252-333 | An edge a successful run did not spare, and every edge after a full run, is there exactly as often as its call stands in the source, whatever stopped before |
| Edges.ExactIffNothingSpared | internal/usecase/analysis/analysisPipeline.go:313-333 | After a successful run the call edges are exactly those of the build of its clone if and only if the run spared no call edge of the repository, and likewise the import edges |
| Examples.DoubledEdgeExample | internal/usecase/analysis/analysisPipeline.go:313-333 | One recursive function: a first run builds its one edge, a second that touches another path leaves the index full and the edge twice |
| Edges.DeletingEdgesFirst | internal/core/calls/repository.go:5-10 | Deleting the repository's edges first would make both tables exactly the build |
| Protocol.StepKeeps | internal/interface/mq/repositoryEventController.go:50-60 | Every step of the protocol, with runs that stop anywhere, redelivery, rejection and runs of other repositories, keeps the invariant |
| Protocol.CompleteLegacy | internal/usecase/analysis/analysisPipeline.go:225-235 | A successful run on an index with absolute paths leaves none, or everything stays in doubt |
| Protocol.RunKeepsClean | internal/usecase/analysis/analysisPipeline.go:93-111 | Wherever a run stops, for this repository or another, paths its message does not mention stay clean |
| Protocol.RunCleans | internal/infra/git/cloner.go:40-44 | After a successful run on a clone newer than its push, a mentioned path is as the head has it unless a later message mentions it |
| Protocol.DrainConsistency | internal/infra/rabbimq/ingestionSubscriber.go:27-95 | In every reachable state a path that no pending message mentions, and no rejected one left in doubt, has exactly the rows the head gives it |
| Protocol.DrainedIsFullIndex | internal/interface/mq/repositoryEventController.go:43-60 | With the queue drained and nothing in doubt, the index is the full index of the head |
| FirstIndex.FirstStepKeeps | internal/usecase/analysis/analysisPipeline.go:89-111 | Every step keeps the invariant of a repository without a record, or turns it into that of one with a record, also where the first run stops halfway |
| FirstIndex.DrainFromEmpty | internal/infra/rabbimq/ingestionSubscriber.go:27-95 | From tables that have never heard of the repository: in every reachable state a path neither pending nor in doubt holds the head's rows if there is a record, and is not in the head if there is none |
| FirstIndex.FirstIndexIsFull | internal/usecase/analysis/analysisPipeline.go:89-111 | With the queue drained and nothing in doubt, a first index made through the queue is the full index of the head |
| HeadGraph.HeadHasEdges | internal/usecase/analysis/analysisPipeline.go:215-218 | When the last run of the repository that rebuilt anything worked on a clone of what is now the head, every call of the head between stored names has its edge |
| GraphExample.StaleGraphExample | internal/usecase/analysis/analysisPipeline.go:242-248 | A drained history, its index the full one of the head, in which a push of no Go file left a call without its edge |
| Announcing.ChunksArePublished | internal/usecase/analysis/analysisPipeline.go:335-366 | In every reachable state each chunk at a path neither pending nor in doubt has been published |
| Announcing.SettledChunksAccounted | internal/interface/mq/embeddingEventController.go:35-86 | From push to vector: with the workers over the same tables and fed by those events, each such chunk has its embedding, or its event is queued, in progress or dead-lettered; likewise its summary |
| Workers.EmbPlaces | internal/interface/mq/nack.go:22-29 | What each step of the embedding worker does to the queue: a rejected message is dead-lettered and does not come back, one neither rejected nor acknowledged is first in the queue again, a new event goes last |
| Workers.SumPlaces | internal/interface/mq/nack.go:22-29 | The same for the summary worker |
| Workers.WhatStepsWrite | internal/interface/mq/embeddingEventController.go:52-79 | An upsert adds one fresh vector, a write sets its column in the row of its chunk and nothing else, a rollback takes that vector away |
| Workers.VectorStep | internal/interface/mq/embeddingEventController.go:35-86 | Every step of workers, inserts and discards keeps the vector invariant |
| Workers.EventStep | internal/infra/rabbimq/embeddingPublisher.go:31-141 | Every step keeps the account of both queues |
| Workers.VectorConservation | internal/interface/mq/embeddingEventController.go:52-79 | In every reachable state each live vector is referred to by exactly one chunk, held by the worker, or leaked, and never two of these; a chunk whose embedding id names no live vector is of a file a discard has listed and not deleted |
| Workers.LeaksExactlyThere | internal/interface/mq/embeddingEventController.go:69-79 | The leak set grows at a step if and only if the step is one of five: write-back to a deleted chunk, overwriting a live vector's id, a row delete after a late write-back, a crash in between, a failed rollback |
| Workers.NothingLeaks | internal/usecase/analysis/vectors.go:34-64 | Over any history without those steps nothing leaks |
| Workers.NoEventLost | internal/interface/mq/nack.go:9-29 | In every reachable state a published event of a chunk that is still there has set its column, or is queued, in progress or dead-lettered, on each of the two queues |
| Workers.MissingRowCrashes | internal/infra/psql/chunkRepository.go:67-84 | With the chunk row gone, the one step that ends the handling is a rejection or a crash |
| Workers.MissingRowNeverAcked | internal/infra/psql/chunkRepository.go:67-84 | Once a chunk row is gone and unread, over any further steps neither worker ever acknowledges an event of it: all stay queued, in progress or dead-lettered, counted |
| WorkerLoop.Cluster.HandleEmbedding | internal/interface/mq/embeddingEventController.go:35-86 | With anything happening between its steps: its own steps are exactly those its calls ask for, in order, rollback included; it acknowledges if and only if every call succeeds; any failed call dead-letters the message, or puts it first in the queue if the rejection fails too; a row that is gone panics it |
| WorkerLoop.Cluster.WriteBack | internal/interface/mq/embeddingEventController.go:69-86 | Write-back, rollback and acknowledgement, with the message's place in every outcome |
| WorkerLoop.Cluster.HandleSummary | internal/interface/mq/summaryEventController.go:33-61 | The same for the summary handler, which writes the text it was given |
| WorkerLoop.ReplayKeeps | internal/interface/mq/embeddingEventController.go:35-86 | Both invariants survive any sequence of steps a handler can be part of |
| WorkerLoop.WritesCommute | internal/infra/psql/chunkRepository.go:112-135 | Writes to different columns commute, also on the same chunk and on chunks that are gone |
| WorkerLoop.Confluence | internal/interface/mq/summaryEventController.go:50-53 | However the two workers' writes interleave, the tables end as if one worker had run after the other |
| WorkerView.WriteIsStep | internal/infra/psql/chunkRepository.go:112-135 | The column updates of the tables are the write steps of the transition system, and match nothing for a deleted chunk |
| WorkerView.DeleteIsStep | internal/infra/psql/migrations/00001_init.up.sql:169-188 | The cascade removes exactly the chunks the row-delete step removes |
| WorkerView.ListIsStep | internal/usecase/analysis/vectors.go:45-50 | The ids collected for cleanup are the embedding ids of the chunks about to be deleted |
| WorkerView.InsertIsStep | internal/core/chunker/service.go:116-147 | An insert of new chunks is an insert step |
| WorkerView.PublishIsStep | internal/infra/rabbimq/embeddingPublisher.go:31-141 | A published chunk event reaches both queues of the exchange |
| WorkerView.InjectiveIs | internal/infra/psql/chunkRepository.go:112-122 | Embedding ids are injective in the tables exactly if they are in the transition system |
| Retrieval.BuildContext | internal/usecase/retrieval/retrievalPipeline.go:91-161 | The memoised context has the same text and the same first error as one with two lookups per chunk, and asks about no symbol or file twice |
| Retrieval.ContextReads | internal/usecase/retrieval/retrievalPipeline.go:121-158 | The text is a title and one block per chunk in order: header with number, kind and lines, summary if there is one, content, every callee of its symbol, every import of its file with its alias if that is not empty |
| Retrieval.FailsAtFirst | internal/usecase/retrieval/retrievalPipeline.go:101-119 | The context fails exactly at the first lookup that fails, chunk by chunk, calls before imports |
| Retrieval.GetChunksByEmbeddingIDs | internal/infra/psql/chunkRepository.go:143-180 | Exactly the chunks whose embedding id is asked for, each once |
| Retrieval.RetrievedAreCurrent | internal/usecase/retrieval/retrievalPipeline.go:63-89 | With injective embedding ids never more chunks than asked for, all of current files, and none for a leaked vector |
| Retrieval.RetrievedWhileRunning | internal/usecase/retrieval/retrievalPipeline.go:63-89 | In every reachable state of the workers, exactly those of the nearest live vectors that are neither leaked nor just upserted yield a chunk, each one chunk of a current file |
| Retrieval.Retrieve | internal/usecase/retrieval/retrievalPipeline.go:58-89 | The first failing call decides the answer; otherwise exactly the chunks whose embedding id is among the first topK of the ranking, seven when no limit is given, each once, with their direct context |

## Left out

- HTTP and gRPC controllers, GitHub and its tokens, the LLM and embedding clients, wiring and configuration: plumbing over libraries whose code is not here; a remote call is an answer that may be a failure.
- Go parsing, type checking and package loading: a tree comes with its names resolved, and the loader is assumed to report the built files.
- The ids of edge rows, checksums, timestamps, languages, receiver and column columns and the parent of a symbol: written, never read by what is modelled.
- Columns of a symbol other than name, kind and lines: one opaque detail string.
- The organization tables: the organization id on a repository record is a plain value, and deleting a repository or an organization is not modelled.
- A pipeline without a vector store or publisher: used by tests only; the model always has both.
- Empty strings for an embedding id or for the symbol and file of a chunk: ids are numbers here, so the guards against them have no case.
- Metadata sent with a vector, and the scores of a query: a query is any ranking of the live vectors.
- Several consumers of ingestion messages: prefetch is one and the consumer is a single loop, so runs do not overlap each other.
- Retrieval text down to its characters: a context is a list of lines carrying the values that are printed.
- Protocol.DrainConsistency: messages of one branch are taken in the order of its pushes; a webhook that overtakes another is not modelled.
- Replay.MessageReplay: its condition is exact when both deliveries clone the same tree; when the first clone differs, that the message mentions all it holds is shown to suffice only.
- WorkerView.InsertIsStep: single writes of the stores are shown to be steps of the workers' system; that a whole run is a sequence of such steps is not.
- Workers.VectorConservation: one embedding worker, as in the program; discards name any set of files, of which the pipeline's are a case.
