/** The collaborators the pruner drives: the two key-value databases under
    the data directory ("blockstore" and "state"), the block store's bounds
    and its PruneBlocks, the state store's PruneStates, compaction and
    closing. Their internals are not modelled; what each call answers is
    taken from an Environment, which fixes one arbitrary answer per call, so
    a property proved for every Environment holds for every outcome the
    engine may produce. Every open, prune, compaction and close is recorded
    in a trace. */
module Storage {
  import opened Int64

  datatype Option<T> = None | Some(value: T)

  /** The two database instances rooted at the data directory. */
  datatype Store = BlockStore | StateStore

  /** The heights a prune request covers: the block store removes every block
      below a height, the state store the states of a half-open range. */
  datatype Range = Below(height: int64) | Between(from: int64, to: int64)

  /** One call into a store, with the answer it got. */
  datatype Event =
    | Opened(store: Store)
    | OpenFailed(store: Store)
    | Pruned(store: Store, range: Range, ok: bool)
    | Compacted(store: Store, ok: bool)
    | Closed(store: Store)

  /** The block store's size, height (highest block) and base (lowest block). */
  datatype Bounds = Bounds(size: int64, height: int64, base: int64)

  /** How one database answers: whether it opens, whether a prune of it
      succeeds and whether a compaction of it succeeds. */
  datatype Behaviour = Behaviour(opens: bool, pruneSucceeds: bool, compactSucceeds: bool)

  datatype Environment = Environment(block: Behaviour, state: Behaviour, bounds: Bounds)
  {
    /** How store `s` answers. */
    function Of(s: Store): Behaviour
    {
      match s
      case BlockStore => block
      case StateStore => state
    }
  }

  /** The data directory with its two databases. `open` holds the handles
      that are currently open; `trace` every open, prune, compaction and close made so far. */
  class DataDir {
    const env: Environment
    var open: set<Store>
    ghost var trace: seq<Event>

    constructor (env: Environment)
      ensures this.env == env && open == {} && trace == []
    {
      this.env := env;
      open := {};
      trace := [];
    }

    /** Opens the named database (db.NewGoLevelDBWithOpts). */
    method Open(s: Store) returns (ok: bool)
      requires s !in open
      modifies this
      ensures ok == env.Of(s).opens
      ensures open == if ok then old(open) + {s} else old(open)
      ensures trace == old(trace) + [if ok then Opened(s) else OpenFailed(s)]
    {
      ok := env.Of(s).opens;
      if ok {
        open := open + {s};
        trace := trace + [Opened(s)];
      } else {
        trace := trace + [OpenFailed(s)];
      }
    }

    /** BlockStore.Size(): the number of stored blocks. */
    method Size() returns (n: int64)
      requires BlockStore in open
      ensures n == env.bounds.size
    {
      n := env.bounds.size;
    }

    /** BlockStore.Height(): the highest stored block. */
    method Height() returns (h: int64)
      requires BlockStore in open
      ensures h == env.bounds.height
    {
      h := env.bounds.height;
    }

    /** BlockStore.Base(): the lowest stored block. */
    method Base() returns (b: int64)
      requires BlockStore in open
      ensures b == env.bounds.base
    {
      b := env.bounds.base;
    }

    /** BlockStore.PruneBlocks: removes every block below `retainHeight`. */
    method PruneBlocks(retainHeight: int64) returns (ok: bool)
      requires BlockStore in open
      modifies this`trace
      ensures ok == env.block.pruneSucceeds
      ensures trace == old(trace) + [Pruned(BlockStore, Below(retainHeight), ok)]
    {
      ok := env.block.pruneSucceeds;
      trace := trace + [Pruned(BlockStore, Below(retainHeight), ok)];
    }

    /** state.Store.PruneStates: removes the states of [from, to). */
    method PruneStates(from: int64, to: int64) returns (ok: bool)
      requires StateStore in open
      modifies this`trace
      ensures ok == env.state.pruneSucceeds
      ensures trace == old(trace) + [Pruned(StateStore, Between(from, to), ok)]
    {
      ok := env.state.pruneSucceeds;
      trace := trace + [Pruned(StateStore, Between(from, to), ok)];
    }

    /** Compact(nil, nil): compacts the whole key range of the database. */
    method Compact(s: Store) returns (ok: bool)
      requires s in open
      modifies this`trace
      ensures ok == env.Of(s).compactSucceeds
      ensures trace == old(trace) + [Compacted(s, ok)]
    {
      ok := env.Of(s).compactSucceeds;
      trace := trace + [Compacted(s, ok)];
    }

    /** Close(): releases the handle. */
    method Close(s: Store)
      requires s in open
      modifies this
      ensures open == old(open) - {s}
      ensures trace == old(trace) + [Closed(s)]
    {
      open := open - {s};
      trace := trace + [Closed(s)];
    }
  }

  // ---------------------------------------------------------------------
  // Handle discipline: a trace is replayed against the set of open
  // handles; opening an open handle, touching or closing a handle that is
  // not open all break it.

  /** The open handles after one event, or None if the event misuses a handle. */
  function Step(e: Event, open: set<Store>): (r: Option<set<Store>>)
    ensures r.Some? <==> (if e.Opened? || e.OpenFailed? then e.store !in open else e.store in open)
  {
    match e
    case Opened(s) => if s in open then None else Some(open + {s})
    case OpenFailed(s) => if s in open then None else Some(open)
    case Pruned(s, _, _) => if s in open then Some(open) else None
    case Compacted(s, _) => if s in open then Some(open) else None
    case Closed(s) => if s in open then Some(open - {s}) else None
  }

  /** The open handles after the whole trace, or None if it misuses a handle. */
  function Replay(t: seq<Event>, open: set<Store>): Option<set<Store>>
    decreases |t|
  {
    if t == [] then Some(open)
    else match Step(t[0], open)
      case None => None
      case Some(next) => Replay(t[1..], next)
  }

  /** Starting with nothing open, every handle is used only while open,
      never opened twice, and closed before the end. */
  predicate WellBracketed(t: seq<Event>) {
    Replay(t, {}) == Some({})
  }

  /** Replaying one event is one step. */
  lemma ReplayOne(e: Event, open: set<Store>)
    ensures Replay([e], open) == Step(e, open)
  {
    assert [e][1..] == [];
  }

  /** Replaying two events is stepping through them in turn. */
  lemma ReplayPair(e1: Event, e2: Event, open: set<Store>)
    ensures Replay([e1, e2], open) ==
      match Step(e1, open)
      case None => None
      case Some(mid) => Step(e2, mid)
  {
    assert [e1, e2][1..] == [e2];
    match Step(e1, open)
    case None =>
    case Some(mid) => ReplayOne(e2, mid);
  }

  /** Replaying a concatenation replays the first part, then the second. */
  lemma {:induction false} ReplayAppend(a: seq<Event>, b: seq<Event>, open: set<Store>)
    ensures Replay(a + b, open) == match Replay(a, open) case None => None case Some(mid) => Replay(b, mid)
    decreases |a|
  {
    if a == [] {
      assert a + b == b;
    } else {
      assert (a + b)[0] == a[0];
      assert (a + b)[1..] == a[1..] + b;
      match Step(a[0], open)
      case None =>
      case Some(next) => ReplayAppend(a[1..], b, next);
    }
  }

  /** In a trace that replays without misuse, every open of a store is
      matched by a close of it, apart from handles open at the start or
      still open at the end. */
  lemma {:induction false} ReplayCountsCloses(t: seq<Event>, open: set<Store>, s: Store)
    requires Replay(t, open).Some?
    ensures multiset(t)[Opened(s)] + (if s in open then 1 else 0)
         == multiset(t)[Closed(s)] + (if s in Replay(t, open).value then 1 else 0)
    decreases |t|
  {
    if t != [] {
      var next := Step(t[0], open).value;
      ReplayCountsCloses(t[1..], next, s);
      assert t == [t[0]] + t[1..];
      assert multiset(t) == multiset([t[0]]) + multiset(t[1..]);
    }
  }

  /** A well-bracketed trace closes each store exactly as often as it opens it. */
  lemma ClosesMatchOpens(t: seq<Event>, s: Store)
    requires WellBracketed(t)
    ensures multiset(t)[Closed(s)] == multiset(t)[Opened(s)]
  {
    ReplayCountsCloses(t, {}, s);
  }
}
