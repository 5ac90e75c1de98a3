/** What a pruning run guarantees, stated about Pruner.Run (which the method
    Pruner.Prune is proved to follow) for every input, every answer of the
    stores and every completion order of the two units. */
module PrunerProperties {
  import opened Int64
  import opened Storage
  import opened Pruner

  // ---------------------------------------------------------------------
  // Properties of a trace.

  /** Some call in the trace pruned store `s` over `range`. */
  predicate PrunedOver(t: seq<Event>, s: Store, range: Range) {
    exists i :: 0 <= i < |t| && t[i].Pruned? && t[i].store == s && t[i].range == range
  }

  /** Every compaction comes after a successful prune of the same store. */
  predicate CompactionFollowsSuccessfulPrune(t: seq<Event>) {
    forall j :: 0 <= j < |t| && t[j].Compacted? ==>
      exists i :: 0 <= i < j && t[i].Pruned? && t[i].store == t[j].store && t[i].ok
  }

  /** No store whose prune failed is compacted. */
  predicate FailedPruneNotCompacted(t: seq<Event>) {
    forall i, j :: 0 <= i < |t| && 0 <= j < |t| && t[i].Pruned? && !t[i].ok && t[j].Compacted? ==>
      t[i].store != t[j].store
  }

  /** The trace never mentions the state store. */
  predicate StateStoreUntouched(t: seq<Event>) {
    forall i :: 0 <= i < |t| ==> t[i].store == BlockStore
  }

  /** The request passes validation, the block store opens and holds at
      least keepBlocks blocks, and the state store opens: the run reaches
      its two units. */
  predicate ReachesUnits(path: string, keepBlocks: int64, env: Environment) {
    path != "" && keepBlocks > 0 && env.block.opens && keepBlocks <= env.bounds.size && env.state.opens
  }

  // ---------------------------------------------------------------------
  // The pruning phase.

  /** The events of one unit: a prune of store `s`, followed by a compaction
      of `s` exactly when the prune succeeded. */
  predicate UnitShape(u: UnitRun, s: Store) {
    1 <= |u.events| <= 2 && u.events[0].Pruned? && u.events[0].store == s &&
    (|u.events| == 2 <==> u.events[0].ok) &&
    (|u.events| == 2 ==> u.events[1].Compacted? && u.events[1].store == s)
  }

  function FirstStore(order: Completion): Store {
    if order == BlockFirst then BlockStore else StateStore
  }

  function SecondStore(order: Completion): Store {
    if order == BlockFirst then StateStore else BlockStore
  }

  lemma UnitsShaped(env: Environment, p: int64, order: Completion)
    ensures UnitShape(FirstUnit(env, p, order), FirstStore(order))
    ensures UnitShape(SecondUnit(env, p, order), SecondStore(order))
    ensures FirstStore(order) != SecondStore(order)
  {
  }

  /** Where each part of the pruning phase sits in its trace. */
  lemma PhaseLayout(env: Environment, p: int64, order: Completion)
    ensures var t := PruningPhase(env, p, order).events;
      var f := FirstUnit(env, p, order).events;
      var g := SecondUnit(env, p, order).events;
      |t| == |f| + |g| + 4 &&
      t[0] == Opened(BlockStore) && t[1] == Opened(StateStore) &&
      (forall k :: 0 <= k < |f| ==> t[2 + k] == f[k]) &&
      (forall k :: 0 <= k < |g| ==> t[2 + |f| + k] == g[k]) &&
      t[|t| - 2] == Closed(StateStore) && t[|t| - 1] == Closed(BlockStore)
  {
  }

  /** When the units are reached, the run is the pruning phase at the
      boundary height - keepBlocks. */
  lemma RunReachesPhase(path: string, keepBlocks: int64, env: Environment, order: Completion)
    requires ReachesUnits(path, keepBlocks, env)
    ensures Run(path, keepBlocks, env, order) == PruningPhase(env, Sub(env.bounds.height, keepBlocks), order)
  {
  }

  /** A unit leaves the set of open handles as it found it, provided its
      store is open. */
  lemma UnitKeepsHandles(u: UnitRun, s: Store, open: set<Store>)
    requires UnitShape(u, s) && s in open
    ensures Replay(u.events, open) == Some(open)
  {
    if |u.events| == 1 {
      assert u.events == [u.events[0]];
      ReplayOne(u.events[0], open);
    } else {
      assert u.events == [u.events[0], u.events[1]];
      ReplayPair(u.events[0], u.events[1], open);
    }
  }

  lemma {:induction false} PhaseWellBracketed(env: Environment, p: int64, order: Completion)
    ensures WellBracketed(PruningPhase(env, p, order).events)
  {
    var f := FirstUnit(env, p, order);
    var g := SecondUnit(env, p, order);
    var both := {BlockStore, StateStore};
    UnitsShaped(env, p, order);
    ReplayPair(Opened(BlockStore), Opened(StateStore), {});
    assert {} + {BlockStore} + {StateStore} == both;
    assert Replay(BothOpened, {}) == Some(both);
    UnitKeepsHandles(f, FirstStore(order), both);
    UnitKeepsHandles(g, SecondStore(order), both);
    ReplayPair(Closed(StateStore), Closed(BlockStore), both);
    assert both - {StateStore} - {BlockStore} == {};
    assert Replay(BothClosed, both) == Some({});
    ReplayAppend(BothOpened, f.events, {});
    ReplayAppend(BothOpened + f.events, g.events, {});
    ReplayAppend(BothOpened + f.events + g.events, BothClosed, {});
  }

  /** Units open nothing, so between the two opens and the two closes of
      the pruning phase each store is opened once. */
  lemma OpenedOnceAround(f: seq<Event>, g: seq<Event>, s: Store)
    requires Opened(s) !in f && Opened(s) !in g
    ensures multiset(BothOpened + f + g + BothClosed)[Opened(s)] == 1
  {
    assert multiset(BothOpened + f + g + BothClosed)
        == multiset(BothOpened) + multiset(f) + multiset(g) + multiset(BothClosed);
    assert multiset(BothOpened)[Opened(s)] == 1;
    assert multiset(BothClosed)[Opened(s)] == 0;
  }

  /** A unit opens nothing. */
  lemma UnitOpensNothing(u: UnitRun, unitStore: Store, s: Store)
    requires UnitShape(u, unitStore)
    ensures Opened(s) !in u.events
  {
  }

  /** The pruning phase opens each store once. */
  lemma PhaseOpensEachOnce(env: Environment, p: int64, order: Completion, s: Store)
    ensures multiset(PruningPhase(env, p, order).events)[Opened(s)] == 1
  {
    var f := FirstUnit(env, p, order);
    var g := SecondUnit(env, p, order);
    UnitsShaped(env, p, order);
    UnitOpensNothing(f, FirstStore(order), s);
    UnitOpensNothing(g, SecondStore(order), s);
    OpenedOnceAround(f.events, g.events, s);
  }

  /** Two units of different stores, between the opens and the closes:
      each compaction follows the successful prune just before it. */
  lemma CompactionFollowsAround(f: UnitRun, g: UnitRun, fs: Store, gs: Store)
    requires UnitShape(f, fs) && UnitShape(g, gs)
    ensures CompactionFollowsSuccessfulPrune(BothOpened + f.events + g.events + BothClosed)
  {
    var t := BothOpened + f.events + g.events + BothClosed;
    var n := |f.events|;
    forall j | 0 <= j < |t| && t[j].Compacted?
      ensures exists i :: 0 <= i < j && t[i].Pruned? && t[i].store == t[j].store && t[i].ok
    {
      if j < 2 + n {
        assert j == 3 && t[2] == f.events[0] && t[3] == f.events[1];
      } else {
        assert j == 3 + n && t[2 + n] == g.events[0] && t[3 + n] == g.events[1];
      }
    }
  }

  /** Two units of different stores, between the opens and the closes: a
      store whose prune failed is not compacted. */
  lemma FailedPruneNotCompactedAround(f: UnitRun, g: UnitRun, fs: Store, gs: Store)
    requires UnitShape(f, fs) && UnitShape(g, gs) && fs != gs
    ensures FailedPruneNotCompacted(BothOpened + f.events + g.events + BothClosed)
  {
    var t := BothOpened + f.events + g.events + BothClosed;
    var n := |f.events|;
    forall i, j | 0 <= i < |t| && 0 <= j < |t| && t[i].Pruned? && !t[i].ok && t[j].Compacted?
      ensures t[i].store != t[j].store
    {
      if i < 2 + n {
        assert i == 2 && n == 1 && t[i] == f.events[0];
        assert j == 3 + n && t[j] == g.events[1];
      } else {
        assert i == 2 + n && t[i] == g.events[0] && |g.events| == 1;
        assert j == 3 && t[j] == f.events[1];
      }
    }
  }

  lemma PhaseCompactsAfterPrune(env: Environment, p: int64, order: Completion)
    ensures CompactionFollowsSuccessfulPrune(PruningPhase(env, p, order).events)
    ensures FailedPruneNotCompacted(PruningPhase(env, p, order).events)
  {
    var f := FirstUnit(env, p, order);
    var g := SecondUnit(env, p, order);
    UnitsShaped(env, p, order);
    CompactionFollowsAround(f, g, FirstStore(order), SecondStore(order));
    FailedPruneNotCompactedAround(f, g, FirstStore(order), SecondStore(order));
  }

  lemma PhaseBoundary(env: Environment, p: int64, order: Completion)
    ensures var t := PruningPhase(env, p, order).events;
      PrunedOver(t, BlockStore, Below(p)) &&
      PrunedOver(t, StateStore, Between(env.bounds.base, p)) &&
      (forall i :: 0 <= i < |t| && t[i].Pruned? ==>
         t[i].range == if t[i].store == BlockStore then Below(p) else Between(env.bounds.base, p))
  {
    var t := PruningPhase(env, p, order).events;
    var f := FirstUnit(env, p, order).events;
    UnitsShaped(env, p, order);
    PhaseLayout(env, p, order);
    assert t[2] == f[0] && t[2 + |f|] == SecondUnit(env, p, order).events[0];
  }

  // ---------------------------------------------------------------------
  // Properties of a whole run.

  /** A request that fails validation is answered with that validation error
      before any store is touched; a valid request always tries to open the
      block store. */
  lemma ValidationBeforeAnyStore(path: string, keepBlocks: int64, env: Environment, order: Completion)
    ensures var r := Run(path, keepBlocks, env, order);
      (r.events == [] <==> path == "" || keepBlocks <= 0) &&
      (path == "" ==> r.outcome == Failure(Validation(PathRequired))) &&
      (path != "" && keepBlocks <= 0 ==> r.outcome == Failure(Validation(KeepBlocksNotPositive))) &&
      (r.outcome.Failure? && r.outcome.error.Validation? <==> path == "" || keepBlocks <= 0)
  {
  }

  /** A block store that cannot be opened fails the run with an open error,
      and nothing needs closing. */
  lemma BlockOpenFailureClosesNothing(path: string, keepBlocks: int64, env: Environment, order: Completion)
    requires path != "" && keepBlocks > 0 && !env.block.opens
    ensures Run(path, keepBlocks, env, order) == RunResult(Failure(OpenError(BlockStore)), [OpenFailed(BlockStore)])
  {
  }

  /** A block store that holds fewer blocks than are to be kept makes the
      run a no-op: success, no prune, no compaction, and the state store is
      never opened. */
  lemma NoOpLeavesStateStoreAlone(path: string, keepBlocks: int64, env: Environment, order: Completion)
    requires path != "" && keepBlocks > 0 && env.block.opens
    requires env.bounds.size < keepBlocks
    ensures var r := Run(path, keepBlocks, env, order);
      r.outcome == Success && StateStoreUntouched(r.events) &&
      forall i :: 0 <= i < |r.events| ==> !r.events[i].Pruned? && !r.events[i].Compacted?
  {
  }

  /** From a size equal to the retention count on, the run does not stop at
      the no-op check: it goes on to open the state store. A state store that
      does not open fails the run, and the open block store is closed. */
  lemma PruningStartsAtThreshold(path: string, keepBlocks: int64, env: Environment, order: Completion)
    requires path != "" && keepBlocks > 0 && env.block.opens
    requires keepBlocks <= env.bounds.size
    ensures var r := Run(path, keepBlocks, env, order);
      |r.events| >= 2 && r.events[1] == (if env.state.opens then Opened(StateStore) else OpenFailed(StateStore))
    ensures !env.state.opens ==>
      (Run(path, keepBlocks, env, order) ==
       RunResult(Failure(OpenError(StateStore)), [Opened(BlockStore), OpenFailed(StateStore), Closed(BlockStore)]))
  {
  }

  /** When pruning happens, both units are run whatever either of them
      answers, and they share one boundary: the block unit prunes below it,
      the state unit prunes from the block store's base up to it. For a
      non-negative height the boundary is exactly height - keepBlocks. */
  lemma UnitsShareOneBoundary(path: string, keepBlocks: int64, env: Environment, order: Completion)
    requires ReachesUnits(path, keepBlocks, env)
    ensures var t := Run(path, keepBlocks, env, order).events;
      var p := Sub(env.bounds.height, keepBlocks);
      PrunedOver(t, BlockStore, Below(p)) &&
      PrunedOver(t, StateStore, Between(env.bounds.base, p)) &&
      (forall i :: 0 <= i < |t| && t[i].Pruned? ==>
         t[i].range == if t[i].store == BlockStore then Below(p) else Between(env.bounds.base, p))
    ensures 0 <= env.bounds.height ==>
      Sub(env.bounds.height, keepBlocks) as int == env.bounds.height as int - keepBlocks as int
  {
    RunReachesPhase(path, keepBlocks, env, order);
    PhaseBoundary(env, Sub(env.bounds.height, keepBlocks), order);
  }

  /** Within each unit, compaction happens only after a successful prune, and
      a failed prune stops its unit before compaction. */
  lemma CompactionOnlyAfterSuccessfulPrune(path: string, keepBlocks: int64, env: Environment, order: Completion)
    ensures var t := Run(path, keepBlocks, env, order).events;
      CompactionFollowsSuccessfulPrune(t) && FailedPruneNotCompacted(t)
  {
    if ReachesUnits(path, keepBlocks, env) {
      RunReachesPhase(path, keepBlocks, env, order);
      PhaseCompactsAfterPrune(env, Sub(env.bounds.height, keepBlocks), order);
    }
  }

  /** Every run, whatever its exit path, leaves no handle open and uses each
      handle only while it is open. */
  lemma EveryRunWellBracketed(path: string, keepBlocks: int64, env: Environment, order: Completion)
    ensures WellBracketed(Run(path, keepBlocks, env, order).events)
  {
    var t := Run(path, keepBlocks, env, order).events;
    if ReachesUnits(path, keepBlocks, env) {
      RunReachesPhase(path, keepBlocks, env, order);
      PhaseWellBracketed(env, Sub(env.bounds.height, keepBlocks), order);
    } else if path != "" && keepBlocks > 0 && env.block.opens {
      if env.bounds.size < keepBlocks {
        assert t == [Opened(BlockStore), Closed(BlockStore)];
        ReplayPair(Opened(BlockStore), Closed(BlockStore), {});
      } else {
        StateOpenFailureWellBracketed();
      }
    } else if path != "" && keepBlocks > 0 {
      ReplayOne(OpenFailed(BlockStore), {});
    }
  }

  /** The exit path where the state store does not open closes the block store. */
  lemma StateOpenFailureWellBracketed()
    ensures WellBracketed([Opened(BlockStore), OpenFailed(StateStore), Closed(BlockStore)])
  {
    var rest := [OpenFailed(StateStore), Closed(BlockStore)];
    assert [Opened(BlockStore), OpenFailed(StateStore), Closed(BlockStore)] == [Opened(BlockStore)] + rest;
    ReplayPair(OpenFailed(StateStore), Closed(BlockStore), {BlockStore});
    ReplayOne(Opened(BlockStore), {});
    ReplayAppend([Opened(BlockStore)], rest, {});
  }

  /** No run opens a store more than once. */
  lemma EveryRunOpensAtMostOnce(path: string, keepBlocks: int64, env: Environment, order: Completion, s: Store)
    ensures multiset(Run(path, keepBlocks, env, order).events)[Opened(s)] <= 1
  {
    if ReachesUnits(path, keepBlocks, env) {
      RunReachesPhase(path, keepBlocks, env, order);
      PhaseOpensEachOnce(env, Sub(env.bounds.height, keepBlocks), order, s);
    }
  }

  /** Every handle a run opens is closed exactly once, on every exit path:
      each store is closed exactly as many times as it was opened, which is
      at most once. */
  lemma EveryHandleClosedExactlyOnce(path: string, keepBlocks: int64, env: Environment, order: Completion, s: Store)
    ensures var t := Run(path, keepBlocks, env, order).events;
      multiset(t)[Closed(s)] == multiset(t)[Opened(s)] <= 1
  {
    EveryRunWellBracketed(path, keepBlocks, env, order);
    ClosesMatchOpens(Run(path, keepBlocks, env, order).events, s);
    EveryRunOpensAtMostOnce(path, keepBlocks, env, order, s);
  }

  /** When pruning happens, the run succeeds exactly when both units
      succeed; a failed run reports the error of a unit that failed, the
      one that finished first if both failed. */
  lemma OutcomeCombinesBothUnits(path: string, keepBlocks: int64, env: Environment, order: Completion)
    requires ReachesUnits(path, keepBlocks, env)
    ensures var p := Sub(env.bounds.height, keepBlocks);
      var blocks := BlockUnit(env, p).outcome;
      var states := StateUnit(env, env.bounds.base, p).outcome;
      var r := Run(path, keepBlocks, env, order).outcome;
      (r.Success? <==> blocks.Success? && states.Success?) &&
      (r.Failure? ==> (r == blocks && blocks.Failure?) || (r == states && states.Failure?)) &&
      (order == BlockFirst && blocks.Failure? ==> r == blocks) &&
      (order == StateFirst && states.Failure? ==> r == states)
  {
    RunReachesPhase(path, keepBlocks, env, order);
  }

  /** The whole-run verdict: success exactly when the request is valid, the
      block store opens, and either there is nothing to do or the state
      store opens and both prunes and both compactions succeed. */
  lemma SuccessCharacterised(path: string, keepBlocks: int64, env: Environment, order: Completion)
    ensures Run(path, keepBlocks, env, order).outcome.Success? <==>
      path != "" && keepBlocks > 0 && env.block.opens &&
      (env.bounds.size < keepBlocks ||
       (env.state.opens && env.block.pruneSucceeds && env.block.compactSucceeds &&
        env.state.pruneSucceeds && env.state.compactSucceeds))
  {
    if ReachesUnits(path, keepBlocks, env) {
      RunReachesPhase(path, keepBlocks, env, order);
    }
  }

  /** Swapping the two units in the pruning phase makes the same calls. */
  lemma SwappedUnitsSameCalls(f: seq<Event>, g: seq<Event>)
    ensures multiset(BothOpened + f + g + BothClosed) == multiset(BothOpened + g + f + BothClosed)
  {
    assert multiset(BothOpened + f + g + BothClosed)
        == multiset(BothOpened) + multiset(f) + multiset(g) + multiset(BothClosed);
    assert multiset(BothOpened + g + f + BothClosed)
        == multiset(BothOpened) + multiset(g) + multiset(f) + multiset(BothClosed);
  }

  /** The completion order decides only which error is reported when both
      units fail: whether the run succeeds, which calls are made and, when at
      most one unit fails, the error reported do not depend on it. */
  lemma OrderOnlyPicksTheError(path: string, keepBlocks: int64, env: Environment)
    ensures var a := Run(path, keepBlocks, env, BlockFirst);
      var b := Run(path, keepBlocks, env, StateFirst);
      multiset(a.events) == multiset(b.events) &&
      (a.outcome.Success? <==> b.outcome.Success?) &&
      ((env.block.pruneSucceeds && env.block.compactSucceeds) ||
         (env.state.pruneSucceeds && env.state.compactSucceeds)
       ==> a.outcome == b.outcome)
  {
    if ReachesUnits(path, keepBlocks, env) {
      var p := Sub(env.bounds.height, keepBlocks);
      RunReachesPhase(path, keepBlocks, env, BlockFirst);
      RunReachesPhase(path, keepBlocks, env, StateFirst);
      SwappedUnitsSameCalls(BlockUnit(env, p).events, StateUnit(env, env.bounds.base, p).events);
    }
  }

  /** The retention window, for a block store whose size counts the heights
      from its base to its height. At the threshold (size == keepBlocks) the
      boundary falls one below the base, so the state range [base, boundary)
      is inverted; above it, the blocks at or above the boundary, which the
      block unit keeps, number keepBlocks + 1, and the range below it holds
      size - keepBlocks - 1 heights. */
  lemma RetentionWindow(bounds: Bounds, keepBlocks: int64)
    requires 1 <= bounds.base <= bounds.height
    requires bounds.size as int == bounds.height as int - bounds.base as int + 1
    requires 0 < keepBlocks <= bounds.size
    ensures Decide(bounds.size, bounds.height, keepBlocks).PruneBelow?
    ensures var p := Decide(bounds.size, bounds.height, keepBlocks).pruneHeight;
      (bounds.size == keepBlocks ==> p as int == bounds.base as int - 1) &&
      (bounds.size > keepBlocks ==>
         bounds.base <= p &&
         bounds.height as int - p as int + 1 == keepBlocks as int + 1 &&
         p as int - bounds.base as int == bounds.size as int - keepBlocks as int - 1)
  {
  }

  /** Example: 100 blocks from height 1 to 100, keep 10. The
      boundary is 90; the block unit prunes below 90 and the state unit
      prunes [1, 90). */
  lemma HundredBlocksKeepTen(env: Environment, order: Completion)
    requires env.bounds == Bounds(100, 100, 1) && env.block.opens && env.state.opens
    ensures var t := Run("./data", 10, env, order).events;
      PrunedOver(t, BlockStore, Below(90)) && PrunedOver(t, StateStore, Between(1, 90))
  {
    UnitsShareOneBoundary("./data", 10, env, order);
  }

  /** Example: 5 blocks, keep 10: a no-op. */
  lemma FiveBlocksKeepTen(env: Environment, order: Completion)
    requires env.bounds.size == 5 && env.block.opens
    ensures var r := Run("./data", 10, env, order);
      r.outcome == Success && StateStoreUntouched(r.events)
  {
    NoOpLeavesStateStoreAlone("./data", 10, env, order);
  }
}
