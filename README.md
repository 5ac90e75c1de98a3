# cometprune pruner, modelled in Dafny

cometprune keeps only the most recent blocks of a CometBFT node's data
directory. Its orchestrator, `Prune`, runs these steps in order:

1. It validates the path and the retention count (`keepBlocks`).
2. It opens the `blockstore` database.
3. It reads the block store's size. If the size is below `keepBlocks`, it
   stops with success.
4. Otherwise it computes the prune height, `Height() - keepBlocks`, in int64.
5. It opens the `state` database.
6. It runs two units concurrently under an errgroup. One prunes blocks
   below the prune height and then compacts the block database. The other
   prunes states in `[Base(), pruneHeight)` and then compacts the state
   database.
7. It returns the first error either unit reported, or nil. Deferred
   `Close()` calls release every database it opened.

The project is split into four modules:

- `Int64` (`int64.dfy`): Go's `int64` as a newtype. `Sub` is Go's
  wrapping subtraction.
- `Storage` (`storage.dfy`): the collaborators the orchestrator drives.
  - Class `DataDir` holds the two databases. Field `open` is the set of open
    handles. Ghost field `trace` records every open, prune, compaction and
    close, with its answer. The size, height and base reads are not recorded.
  - An `Environment` value fixes what each store answers: whether it opens,
    whether prune and compact succeed, and the size/height/base snapshot.
    Every property is proved for all environments, so it holds for every
    outcome the storage engine can produce.
  - `Replay` checks a trace against handle discipline. A handle may not be
    opened twice, used while closed, or closed twice.
- `Pruner` (`pruner.dfy`): `pruner.go` itself.
  - Pure specifications: `Validate`, `Decide`, `Wait` (errgroup), the
    generic unit `PruneAndCompact` and the whole run `Run`.
  - Methods proved to follow them: `PruneBlockStore`, `PruneStateStore`
    and `Prune`. The proof covers both the returned error and the exact
    sequence of opens, prunes, compactions and closes.
- `PrunerProperties` (`properties.dfy`): what every run guarantees, proved
  about `Run`.

Two points of concurrency are modelled this way:

- The order in which the two units finish depends on the scheduler. It is
  the parameter `order: Completion`.
- The units share only the immutable boundary. They are modelled as two
  sequential runs in completion order. `Wait` returns the first error in
  that order, which is errgroup's behaviour.

Two behaviours of the code that are easy to misread:

- The no-op test is `size < keepBlocks`. A size equal to the retention count
  goes on to prune (`PruningStartsAtThreshold`).
- `errgroup.Wait` on a plain `errgroup.Group` waits for both units, so a
  failure in one unit never stops the other. The model always runs both
  units (`UnitsShareOneBoundary`).

`RetentionWindow` states two consequences of the boundary arithmetic. Take
a block store whose size counts the heights from base to height. Above the
threshold, the blocks at or above the boundary number `keepBlocks + 1`. At
the threshold, the boundary is `base - 1`, so the state range
`[base, boundary)` is inverted. What the block store and the state store do
with such a bound is their own business, and neither is part of this model.

## Model

| member | source | states |
|---|---|---|
| `Int64.Sub` | internal/pruner/pruner.go:34 | int64 subtraction: the exact difference when it fits in int64, otherwise the difference wrapped modulo 2^64 |
| `Pruner.Validate` | internal/pruner/pruner.go:55-65 | validation succeeds iff the path is non-empty and keepBlocks > 0; an empty path gives "path required" whatever keepBlocks is; otherwise keepBlocks <= 0 gives "keep-blocks must be greater than zero" |
| `Pruner.Decide` | internal/pruner/pruner.go:29-34 | nothing to do iff size < keepBlocks; otherwise the prune height is the int64 difference height - keepBlocks, and it is exact whenever height >= 0 and keepBlocks > 0 |
| `Pruner.Wait` | internal/pruner/pruner.go:44-52 | the combined result is nil iff both units returned nil; a combined error is an error of one of the units; an error from the unit that finished first wins |
| `Pruner.PruneAndCompact` | internal/pruner/pruner.go:67-100 | a unit succeeds iff its prune and its compaction both succeed; a failed prune ends the unit with a prune error and no compaction; after a successful prune, compaction always runs and its failure gives a compaction error |
| `Pruner.PruneBlockStore` | internal/pruner/pruner.go:67-82 | calls PruneBlocks at the given height, then compacts the block database only if the prune succeeded; its error and the calls it makes are those of the block unit |
| `Pruner.PruneStateStore` | internal/pruner/pruner.go:84-100 | calls PruneStates over [from, to), then compacts the state database only if the prune succeeded; its error and the calls it makes are those of the state unit |
| `Pruner.Prune` | internal/pruner/pruner.go:14-53 | the orchestrator returns exactly Run's outcome and records exactly Run's opens, prunes, compactions and closes; it starts and ends with no handle open |
| `Storage.DataDir.Open` | internal/pruner/pruner.go:23-26 | opening a database either adds its handle to the open set or fails and leaves the set unchanged; the attempt and its result are recorded |
| `Storage.DataDir.Size` | internal/pruner/pruner.go:29 | reads the block store's size from the snapshot while the block store is open |
| `Storage.DataDir.Height` | internal/pruner/pruner.go:34 | reads the block store's height from the snapshot while the block store is open |
| `Storage.DataDir.Base` | internal/pruner/pruner.go:42 | reads the block store's base from the snapshot while the block store is open |
| `Storage.DataDir.PruneBlocks` | internal/pruner/pruner.go:69 | a block prune below the given height; it needs the block store open and is recorded with its result |
| `Storage.DataDir.PruneStates` | internal/pruner/pruner.go:88 | a state prune over [from, to); it needs the state store open and is recorded with its result |
| `Storage.DataDir.Compact` | internal/pruner/pruner.go:76 | a full-range compaction of an open database, recorded with its result |
| `Storage.DataDir.Close` | internal/pruner/pruner.go:27 | releases an open handle: removes it from the open set and records the close |
| `Storage.ClosesMatchOpens` | internal/pruner/pruner.go:40 | in a trace that starts and ends with no handle open and never misuses a handle, each store is closed exactly as often as it is opened |
| `PrunerProperties.ValidationBeforeAnyStore` | internal/pruner/pruner.go:15-17 | a run makes no store call iff validation fails; an empty path gives the path error; a non-empty path with keepBlocks <= 0 gives the keep-blocks error; the run reports a validation error iff the input is invalid |
| `PrunerProperties.BlockOpenFailureClosesNothing` | internal/pruner/pruner.go:23-26 | if the block store does not open, the run fails with the block-open error, its only call is the failed open, and nothing is closed |
| `PrunerProperties.NoOpLeavesStateStoreAlone` | internal/pruner/pruner.go:29-33 | when size < keepBlocks the run succeeds, never prunes or compacts, and never touches the state store |
| `PrunerProperties.PruningStartsAtThreshold` | internal/pruner/pruner.go:30-39 | when size >= keepBlocks (equality included) the run goes on to open the state store; if that open fails, the run fails with the state-open error after closing the block store |
| `PrunerProperties.UnitsShareOneBoundary` | internal/pruner/pruner.go:34-49 | once both stores are open, both units run whatever the other answers; the block unit prunes below height - keepBlocks; the state unit prunes [block store base, height - keepBlocks); no other prune range occurs; the boundary is exact when height >= 0 |
| `PrunerProperties.CompactionOnlyAfterSuccessfulPrune` | internal/pruner/pruner.go:69-78 | in every run, every compaction comes after a successful prune of the same store, and no store whose prune failed is compacted |
| `PrunerProperties.EveryRunWellBracketed` | internal/pruner/pruner.go:23-52 | on every exit path (validation error, open failure, no-op, unit failure, success), the run uses each handle only while it is open, never opens one twice, and ends with none open |
| `PrunerProperties.EveryRunOpensAtMostOnce` | internal/pruner/pruner.go:23-40 | no run opens either store more than once |
| `PrunerProperties.EveryHandleClosedExactlyOnce` | internal/pruner/pruner.go:27-40 | in every run, each store is closed exactly as many times as it was opened, and that number is at most one |
| `PrunerProperties.OutcomeCombinesBothUnits` | internal/pruner/pruner.go:44-52 | once both units run, the run succeeds iff both units succeed; a failed run reports the error of a failing unit, and that unit's error when it finished first |
| `PrunerProperties.SuccessCharacterised` | internal/pruner/pruner.go:14-53 | a run succeeds iff the input is valid, the block store opens, and either size < keepBlocks or the state store opens and both prunes and both compactions succeed |
| `PrunerProperties.OrderOnlyPicksTheError` | internal/pruner/pruner.go:44-52 | the completion order does not change the multiset of recorded opens, prunes, compactions and closes or whether the run succeeds, nor the reported error unless both units fail |
| `PrunerProperties.RetentionWindow` | internal/pruner/pruner.go:30-34 | for a block store with size = height - base + 1 and 0 < keepBlocks <= size: at size == keepBlocks the boundary is base - 1; above it, the boundary is at least base, keepBlocks + 1 blocks lie at or above it, and size - keepBlocks - 1 heights lie below it |
| `PrunerProperties.HundredBlocksKeepTen` | internal/pruner/pruner.go:34-49 | with size 100, height 100, base 1 and keepBlocks 10, the block unit prunes below 90 and the state unit prunes [1, 90) |
| `PrunerProperties.FiveBlocksKeepTen` | internal/pruner/pruner.go:29-33 | with size 5 and keepBlocks 10, the run succeeds without touching the state store |

## Left out

- Command-line flags (`cmd/cometprune.go`) and the exit-code mapping in `main.go`: glue that only forwards to `Prune` and prints.
- The progress messages, including the "states pruned" count `toHeight - fromHeight`, which can be negative. They are output only and do not affect the result.
- Storage internals: the goleveldb engine, and the cometbft `BlockStore.PruneBlocks` and `state.Store.PruneStates`. They are foreign code. Each call is modelled by an arbitrary success or failure.
- The block count that `PruneBlocks` returns. The source only prints it.
- The goleveldb options (`DisableSeeksCompaction: true`) and the state-store option (`DiscardABCIResponses: false`). They configure the foreign engine and change nothing this model can observe.
- The wrapped error text. Errors are modelled as kinds: validation (with its reason), open, prune and compaction, each tagged with its store.
- Errors from the deferred `Close()` calls. The source discards them, so `Storage.DataDir.Close` always succeeds.
- Goroutine interleaving. The two units touch disjoint stores and share only an immutable boundary. They are modelled as two sequential runs in completion order, and `order` chooses which finishes first.
- Each `Environment` gives one answer per operation. Within a run every operation is called at most once, so no outcome is lost. Repeated runs over the same directory, and so idempotence across runs, depend on the stores' internals and are not modelled.
