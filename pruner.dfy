/** The pruning orchestrator (internal/pruner/pruner.go): validate the
    request, open the block store, decide whether anything is to be done,
    open the state store, run the block unit and the state unit (each: prune,
    then compact) and combine their results into one, closing every handle
    it opened on the way out.

    Each source function appears twice: as a pure specification (Validate,
    Decide, PruneAndCompact, Wait, Run) and, where the source works step by
    step on store handles, as a method proved to behave as that specification
    says (PruneBlockStore, PruneStateStore, Prune). */
module Pruner {
  import opened Int64
  import opened Storage

  datatype ValidationReason = PathRequired | KeepBlocksNotPositive

  /** The error a run reports, tagged with the step that produced it. */
  datatype ErrorKind =
    | Validation(reason: ValidationReason)
    | OpenError(openStore: Store)
    | PruneError(pruneStore: Store)
    | CompactError(compactStore: Store)

  /** Go's `error`: nil (Success) or an error. */
  datatype Outcome = Success | Failure(error: ErrorKind)

  /** validate: the path must be non-empty and the retention count positive;
      the path is checked first. */
  function Validate(path: string, keepBlocks: int64): (r: Outcome)
    ensures r.Success? <==> path != "" && keepBlocks > 0
    ensures path == "" ==> r == Failure(Validation(PathRequired))
    ensures path != "" && keepBlocks <= 0 ==> r == Failure(Validation(KeepBlocksNotPositive))
  {
    if path == "" then Failure(Validation(PathRequired))
    else if keepBlocks <= 0 then Failure(Validation(KeepBlocksNotPositive))
    else Success
  }

  /** The retention decision: nothing to do, or prune below a boundary. */
  datatype Decision = NothingToDo | PruneBelow(pruneHeight: int64)

  /** A store holding fewer blocks than are to be kept is left alone;
      otherwise the boundary is the height minus the retention count, in
      int64 arithmetic. */
  function Decide(size: int64, height: int64, keepBlocks: int64): (d: Decision)
    ensures d.NothingToDo? <==> size < keepBlocks
    ensures d.PruneBelow? ==> d.pruneHeight == Sub(height, keepBlocks)
    ensures d.PruneBelow? && 0 <= height && 0 < keepBlocks ==>
              d.pruneHeight as int == height as int - keepBlocks as int
  {
    if size < keepBlocks then NothingToDo else PruneBelow(Sub(height, keepBlocks))
  }

  /** Which of the two concurrently running units finishes first; chosen by
      the goroutine scheduler, so a parameter of the model. */
  datatype Completion = BlockFirst | StateFirst

  /** errgroup.Wait over two units listed in the order they finish: nil when
      both succeeded, otherwise the first error reported. */
  function Wait(first: Outcome, second: Outcome): (r: Outcome)
    ensures r.Success? <==> first.Success? && second.Success?
    ensures r.Failure? ==> (r == first || r == second)
    ensures first.Failure? ==> r == first
  {
    if first.Failure? then first else second
  }

  /** The result of one unit of work, and the calls it made. */
  datatype UnitRun = UnitRun(outcome: Outcome, events: seq<Event>)

  /** The shape shared by pruneBlockStore and pruneStateStore: prune the
      range; on failure stop, else compact the whole database. */
  function PruneAndCompact(b: Behaviour, s: Store, range: Range): (u: UnitRun)
    ensures u.outcome.Success? <==> b.pruneSucceeds && b.compactSucceeds
    ensures !b.pruneSucceeds ==> u == UnitRun(Failure(PruneError(s)), [Pruned(s, range, false)])
    ensures b.pruneSucceeds ==> u.events == [Pruned(s, range, true), Compacted(s, b.compactSucceeds)]
    ensures b.pruneSucceeds && !b.compactSucceeds ==> u.outcome == Failure(CompactError(s))
  {
    if !b.pruneSucceeds then
      UnitRun(Failure(PruneError(s)), [Pruned(s, range, false)])
    else if !b.compactSucceeds then
      UnitRun(Failure(CompactError(s)), [Pruned(s, range, true), Compacted(s, false)])
    else
      UnitRun(Success, [Pruned(s, range, true), Compacted(s, true)])
  }

  /** The block unit: prune every block below the boundary, then compact. */
  function BlockUnit(env: Environment, pruneHeight: int64): UnitRun {
    PruneAndCompact(env.block, BlockStore, Below(pruneHeight))
  }

  /** The state unit: prune the states of [fromHeight, toHeight), then compact. */
  function StateUnit(env: Environment, fromHeight: int64, toHeight: int64): UnitRun {
    PruneAndCompact(env.state, StateStore, Between(fromHeight, toHeight))
  }

  /** The unit that finishes first, and the one that finishes second. Both
      prune up to the same boundary `p`; the state unit starts at the block
      store's base. */
  function FirstUnit(env: Environment, p: int64, order: Completion): UnitRun {
    if order == BlockFirst then BlockUnit(env, p) else StateUnit(env, env.bounds.base, p)
  }

  function SecondUnit(env: Environment, p: int64, order: Completion): UnitRun {
    if order == BlockFirst then StateUnit(env, env.bounds.base, p) else BlockUnit(env, p)
  }

  /** The result of a whole run, and the calls it made. */
  datatype RunResult = RunResult(outcome: Outcome, events: seq<Event>)

  /** The handle opens that precede the units, and the deferred closes that
      follow them (in reverse order of opening). */
  const BothOpened: seq<Event> := [Opened(BlockStore), Opened(StateStore)]
  const BothClosed: seq<Event> := [Closed(StateStore), Closed(BlockStore)]

  /** The part of a run after both stores are open: both units, one after the
      other in completion order, then the deferred closes. */
  function PruningPhase(env: Environment, p: int64, order: Completion): RunResult {
    var first := FirstUnit(env, p, order);
    var second := SecondUnit(env, p, order);
    RunResult(Wait(first.outcome, second.outcome), BothOpened + first.events + second.events + BothClosed)
  }

  /** What Prune does, as a function of its inputs, of what the stores answer
      and of the order in which the two units finish. */
  function Run(path: string, keepBlocks: int64, env: Environment, order: Completion): RunResult {
    var v := Validate(path, keepBlocks);
    if v.Failure? then RunResult(v, [])
    else if !env.block.opens then RunResult(Failure(OpenError(BlockStore)), [OpenFailed(BlockStore)])
    else match Decide(env.bounds.size, env.bounds.height, keepBlocks)
      case NothingToDo => RunResult(Success, [Opened(BlockStore), Closed(BlockStore)])
      case PruneBelow(p) =>
        if !env.state.opens then
          RunResult(Failure(OpenError(StateStore)), [Opened(BlockStore), OpenFailed(StateStore), Closed(BlockStore)])
        else PruningPhase(env, p, order)
  }

  /** pruneBlockStore: prune the blocks below `pruneHeight`, then compact
      the block store's database. */
  method PruneBlockStore(dir: DataDir, pruneHeight: int64) returns (err: Outcome)
    requires BlockStore in dir.open
    modifies dir`trace
    ensures err == BlockUnit(dir.env, pruneHeight).outcome
    ensures dir.trace == old(dir.trace) + BlockUnit(dir.env, pruneHeight).events
  {
    var ok := dir.PruneBlocks(pruneHeight);
    if !ok {
      return Failure(PruneError(BlockStore));
    }
    ok := dir.Compact(BlockStore);
    if !ok {
      return Failure(CompactError(BlockStore));
    }
    return Success;
  }

  /** pruneStateStore: prune the states of [fromHeight, toHeight), then
      compact the state database. */
  method PruneStateStore(dir: DataDir, fromHeight: int64, toHeight: int64) returns (err: Outcome)
    requires StateStore in dir.open
    modifies dir`trace
    ensures err == StateUnit(dir.env, fromHeight, toHeight).outcome
    ensures dir.trace == old(dir.trace) + StateUnit(dir.env, fromHeight, toHeight).events
  {
    var ok := dir.PruneStates(fromHeight, toHeight);
    if !ok {
      return Failure(PruneError(StateStore));
    }
    ok := dir.Compact(StateStore);
    if !ok {
      return Failure(CompactError(StateStore));
    }
    return Success;
  }

  /** Prune: the orchestrator. The two units run one after the other in the
      order given by `order`; each `defer Close()` of the source is a close
      on every return path after the matching open. */
  method Prune(path: string, keepBlocks: int64, dir: DataDir, order: Completion) returns (err: Outcome)
    requires dir.open == {}
    modifies dir
    ensures err == Run(path, keepBlocks, dir.env, order).outcome
    ensures dir.trace == old(dir.trace) + Run(path, keepBlocks, dir.env, order).events
    ensures dir.open == {}
  {
    err := Validate(path, keepBlocks);
    if err.Failure? {
      return;
    }

    var ok := dir.Open(BlockStore);
    if !ok {
      return Failure(OpenError(BlockStore));
    }
    var size := dir.Size();
    if size < keepBlocks {
      dir.Close(BlockStore);
      return Success;
    }
    var height := dir.Height();
    var pruneHeight := Sub(height, keepBlocks);

    ok := dir.Open(StateStore);
    if !ok {
      dir.Close(BlockStore);
      return Failure(OpenError(StateStore));
    }

    var minHeight := dir.Base();

    var blockErr, stateErr;
    if order == BlockFirst {
      blockErr := PruneBlockStore(dir, pruneHeight);
      stateErr := PruneStateStore(dir, minHeight, pruneHeight);
      err := Wait(blockErr, stateErr);
    } else {
      stateErr := PruneStateStore(dir, minHeight, pruneHeight);
      blockErr := PruneBlockStore(dir, pruneHeight);
      err := Wait(stateErr, blockErr);
    }

    dir.Close(StateStore);
    dir.Close(BlockStore);
  }
}
