# Geomsaek search sessions, modelled in Dafny

Geomsaek wraps Apple's SearchKit. An `Index` stores documents. A `Searcher` starts searches against it. Each search runs as a `_SearchOperation` on an operation queue. The operation polls the engine for matches in batches of 20, reports every batch to an optional progress handler, and hands the final `SearchResults` to an optional completion handler. The searcher keeps a table from search ID to running operation, so that searches can be cancelled by ID. `SearchResults` resolves its document identifiers to documents and URLs the first time they are asked for, and caches them.

This project models that bookkeeping, and treats the engine as an oracle:

- `engine.dfy` (module `Engine`): identifiers, scores, documents and URLs. `Index` is a class whose constant fields are the engine's resolvers and its answers to each query. `SearchHandle` is a running engine search: it holds the batches it has not handed out yet, and `FindMatches` hands out the next one in buffers of the requested size.
- `operation.dfy` (module `Operation`): `SearchOperation` and its batch loop `Run` (the source's `main`). The loop is specified by recursive functions over the engine's batches. `Rounds`/`Calls` count the engine calls, `Gathered` gives what those calls add, and `Progress` gives the snapshots the progress block receives. Lemmas about these functions state what the loop guarantees.
- `search.dfy` (module `Search`): the `Searcher` class, with its counter `nextSearchID` and its table `searches: map<SearchID, SearchOperation>`. `Complete` is the completion block that `startSearch` installs. `CancelOne`/`CancelEvery` describe what cancelling does to the table's cancel flags.
- `results.dfy` (module `Results`): `Compact`, which is Swift's `flatMap { $0 }` over optionals, and the `SearchResults` class with its two `Option` caches.
- `wrappers.dfy`: `Option`.

The search is run sequentially. A cancel that reaches an operation while its loop is running comes from another thread, or from the progress handler itself. `Run` takes these as the parameter `cancels`: the numbers of the engine calls during which such a cancel arrives. The loop sees the flag only at the head of the next iteration, as in the source.

Two facts about the code shape the model:

- The progress block is called after every engine call, including one that found nothing. So the reported counts never decrease, but they need not increase. `EmptyBatchRepeatsSnapshot` shows two equal consecutive snapshots.
- `_searches` is not synchronised. The model has only sequential calls, so it says nothing about races.

## Model

| member | source | states |
|---|---|---|
| `Engine.Trim` | Geomsaek/Search.swift:37-41 | what one engine call passes on: never more than the buffer size, identifiers and scores in step, nothing with no more results when the search is exhausted |
| `Engine.TrimPrefix` | Geomsaek/Search.swift:37-41 | the passed-on matches are a prefix of the engine's next answer, the whole answer when it fits, and carry its more-results flag |
| `Engine.Answer` | Geomsaek/Search.swift:33-37 | a call fills buffers of exactly `limit` entries; `found <= limit`; the first `found` entries are the passed-on matches and the rest keep their initial zero |
| `Engine.SearchHandle.FindMatches` | Geomsaek/Search.swift:37 | the call's four results are the engine's answer, and the engine moves on to its next batch |
| `Engine.SearchHandle.constructor` | Geomsaek/Search.swift:70 | a new search holds the engine's answers for the terms and options |
| `Engine.Index.DocumentsWithIDs` | Geomsaek/Index.swift:57-66 | one optional document per identifier, in input order, so the empty input gives the empty output |
| `Engine.Index.URLsWithIDs` | Geomsaek/Index.swift:68-75 | one optional URL per identifier, in input order |
| `Operation.Reply` | Geomsaek/Search.swift:33-41 | what call `k` of a search adds has identifiers and scores of equal length, at most 20 |
| `Operation.Rounds` | Geomsaek/Search.swift:32 | once the loop has started it makes at least one engine call |
| `Operation.RoundsBound` | Geomsaek/Search.swift:32-37 | the loop makes at most one call per batch the engine holds, plus the call that finds the search exhausted |
| `Operation.RoundsShape` | Geomsaek/Search.swift:32 | the loop exit: every call before the last reported more results and saw no cancel; the last call reported no more results or had a cancel arrive |
| `Operation.RoundsUnique` | Geomsaek/Search.swift:32 | the converse of RoundsShape: any count with that shape is the number of calls made |
| `Operation.CancelBoundsRounds` | Geomsaek/Search.swift:32 | a cancel arriving during call `j` stops the loop after call `j` at the latest |
| `Operation.GatheredAligned` | Geomsaek/Search.swift:40-41 | the identifiers and scores gathered by `n` calls have equal length, at most `20 * n` |
| `Operation.GatheredGrows` | Geomsaek/Search.swift:40-41 | a later call only appends: what `i` calls gathered is a prefix of what `j >= i` calls gathered, for identifiers and for scores |
| `Operation.Progress` | Geomsaek/Search.swift:44 | the progress block receives one snapshot per engine call |
| `Operation.ProgressAt` | Geomsaek/Search.swift:40-44 | the snapshot after call `i` is the starting accumulators followed by what the first `i + 1` calls gathered |
| `Operation.ProgressChain` | Geomsaek/Search.swift:40-44 | each progress snapshot is a prefix of every later snapshot and of the final results, so the reported counts never decrease |
| `Operation.EmptyBatchRepeatsSnapshot` | Geomsaek/Search.swift:37-44 | a batch that finds nothing but reports more results yields the same snapshot twice |
| `Operation.HeadStep` | Geomsaek/Search.swift:32-45 | one iteration of the loop keeps the loop invariant `AtHead` |
| `Operation.HeadStart` | Geomsaek/Search.swift:29-32 | the loop invariant holds before the first iteration |
| `Operation.HeadExit` | Geomsaek/Search.swift:32 | at loop exit, the number of calls is `Calls`, the accumulators grew in step by at most 20 per call, and a flag set before the start means no call at all |
| `Operation.SearchOperation.constructor` | Geomsaek/Search.swift:19-24 | a new operation has empty accumulators, is not cancelled, and has no progress block |
| `Operation.SearchOperation.Run` | Geomsaek/Search.swift:26-46 | the loop makes `Calls` engine calls, none if the flag was set before the start. The accumulators are the old ones followed by `Gathered`, and grow in step. The progress log grows by `Progress` exactly when a block is installed. The flag is set if it was set before or a cancel arrived during a call. The engine has handed out exactly the batches of those calls |
| `Search.CancelOne` | Geomsaek/Search.swift:103-108 | cancelling an ID keeps the flag table's keys; it sets that ID's flag, or does nothing when the ID is absent |
| `Search.CancelEvery` | Geomsaek/Search.swift:110-112 | after cancel-all the keys are unchanged and every flag is set |
| `Search.CancelOneIdempotent` | Geomsaek/Search.swift:103-108 | cancelling an ID twice has the effect of cancelling it once |
| `Search.CancelOneCommutes` | Geomsaek/Search.swift:103-108 | two cancels commute |
| `Search.CancelInOrderCovers` | Geomsaek/Search.swift:110-112 | cancelling the IDs of a list one after the other sets exactly the flags of the listed IDs and keeps the keys |
| `Search.CancelEachIsCancelEvery` | Geomsaek/Search.swift:110-112 | cancelling every key, in any order, is cancel-all |
| `Search.Searcher.constructor` | Geomsaek/Search.swift:57-66 | the counter starts at 0 and the table is empty |
| `Search.Searcher.StartSearch` | Geomsaek/Search.swift:68-101 | the counter is incremented before use, so the returned ID is the old counter plus one, and it is greater than every registered ID and was never issued before. The table gains exactly that ID, mapped to a fresh operation over a fresh engine search for the terms. Every earlier entry is unchanged |
| `Search.Searcher.Complete` | Geomsaek/Search.swift:85-93 | called only with the ID and operation that one `startSearch` created (the pair its block captures, kept in the ghost map `started`), the completion block removes its ID from the table whether or not a handler was supplied, and touches no other entry; the handler, when supplied, receives a fresh result set holding the operation's final identifiers and scores |
| `Search.Searcher.CancelSearch` | Geomsaek/Search.swift:103-108 | only the flag of the operation registered under the ID is set; an absent ID changes nothing; the table and counter are unchanged; the flag table becomes `CancelOne` of the old one |
| `Search.Searcher.CancelAllSearches` | Geomsaek/Search.swift:110-112 | every registered operation is cancelled, the table keeps its keys and entries, and the flag table becomes `CancelEvery` of the old one |
| `Search.StartFourSearches` | GeomsaekTests/GeomsaekTests.swift:39-45 | four searches started on a fresh searcher get the IDs 1, 2, 3, 4, and all four are registered |
| `Search.UnmatchedSearch` | GeomsaekTests/GeomsaekTests.swift:39-47 | a query with no matches still completes; its handler receives an empty result set whose documents resolve to the empty list, and the table is empty afterwards |
| `Results.Compact` | Geomsaek/Search.swift:123 | dropping the unresolved entries never lengthens the list |
| `Results.CompactAppend` | Geomsaek/Search.swift:123 | dropping unresolved entries distributes over concatenation, so what is kept stays in input order |
| `Results.CompactMember` | Geomsaek/Search.swift:123 | a value is in the result exactly when it is present in the input |
| `Results.CompactFull` | Geomsaek/Search.swift:123 | the result is as long as the input exactly when every entry resolved |
| `Results.CompactAllPresent` | Geomsaek/Search.swift:123 | when every entry resolved, the result is the entries unwrapped one by one |
| `Results.SearchResults.constructor` | Geomsaek/Search.swift:136-140 | a new result set holds the given identifiers and scores, with both caches empty |
| `Results.SearchResults.Documents` | Geomsaek/Search.swift:120-126 | the result is the resolver's output with unresolved identifiers dropped, no longer than the identifiers and as long exactly when all resolve. It fills the cache, and the resolver is asked once per result set: a later access returns the cached list |
| `Results.SearchResults.URLs` | Geomsaek/Search.swift:128-134 | the same, for URLs |

## Left out

- The queue `_searchQueue` and the threads it runs operations on. Operations run when a caller calls `Run`, and their completion block runs when a caller calls `Complete`. So "the completion block fires exactly once, after the loop" is not modelled. Neither are races on the unsynchronised `_searches` table.
- Engine relevance, the 1000 timeout of a batch call, and `SKSearchCancel`. The engine is an oracle: `Index.matchesFor` gives the batches it will hand out for a query, and a cancel is only the operation's flag.
- The engine is assumed to end every search after finitely many answers: each query's answers are a finite list, and once it is used up the engine reports no more results. `Run` therefore always terminates, and `RoundsBound` and the call bound of `Run` rest on this. The source's loop has no cap of its own, and it keeps calling for as long as the engine reports more results, for example through repeated empty time-outs.
- `Search.Searcher.StartSearch`: the counter is an unbounded `int`. In the source, `_nextSearchID += 1` traps when the counter is already `Int.max`; the model does not have that trap.
- Scores are opaque `real` values, carried next to identifiers. Nothing is computed with them.
- `SearchOptions` raw bit values, and `IndexType`. The options are passed through to the engine oracle.
- `Index` creation and opening (including the open-or-create fallback), `add`, `flushIndex`, `documentCount`, `Document` construction and URL lookup, and memory management of engine objects. These are single foreign calls. The model keeps only the two resolvers, as total functions giving one optional entry per identifier.
- The progress and completion handlers themselves are not modelled. The model records whether each was supplied, and `progressLog` records the snapshots the progress block receives. Each such snapshot would be wrapped in a fresh `SearchResults`, the same way as in `Complete`.
- `SearchResults.documentIDs` is a public `var` in the source. The cache invariant `Valid` assumes nobody reassigns it after a cache is filled; the source does not guard against that.
- The test's concrete match counts depend on the engine and on its text fixtures, so they are not modelled.
- `Search.StartFourSearches`: the test starts its searches in the iteration order of a dictionary literal, which is unspecified. The model takes the four terms as a parameter in some order, so it says nothing about which term gets which ID.
