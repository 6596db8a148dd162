/** Clients of the FibLib model: what a caller can conclude from the
    contracts alone when several operations follow each other. */
module Scenarios {
  import opened Tracking
  import opened FibStore
  import opened FibLib

  /** Fetching an instance twice drains the pending stack once: the second
      fetch pops nothing and notifies nothing. */
  method DrainOnce(g: Globals, world: World)
    modifies g`pending, world`state, world`updates, world.state
  {
    var n := |g.pending|;
    var first, drained := g.GetInstance(world);
    assert drained == n;
    var updates := world.updates;
    var second, again := g.GetInstance(world);
    assert second == first && again == 0 && world.updates == updates;
  }

  /** A preloaded registration is applied, independently, to every world of
      its dimension type that is loaded afterwards. */
  method PreloadTwoWorlds(g: Globals, d: Dimension, b: Block, f: Fib, blockAt: Pos -> Block)
    requires d !in g.preLoad
    modifies g
  {
    g.RegisterForDimension(d, b, f);
    var w1 := new World(d, blockAt);
    var w2 := new World(d, blockAt);
    var n1 := g.RegisterPreloadedFibs(w1);
    var n2 := g.RegisterPreloadedFibs(w2);
    assert [(b, f)][0].0 == b;
    RegisterAllLastWins(map[], [(b, f)], 0);
    assert n1 == 1 && n2 == 1;
    assert w1.state != w2.state;
    assert w1.state.fibs[b] == f && w2.state.fibs[b] == f;
  }

  /** A put with no world for a block nobody ever registered is dropped, so a
      world that registers the block later tracks nothing for it. */
  method EarlyPutDropped(g: Globals, b: Block, pos: Pos, f: Fib, blockAt: Pos -> Block, d: Dimension)
    requires b !in g.allFibBlocks && g.pending == []
    modifies g
  {
    g.PutPending(b, pos);
    assert g.pending == [];
    var w := new World(d, blockAt);
    g.Register(w, b, f);
    assert Positions(w.state.blocks, b) == {};
  }

  /** A tracked block with a fib is shown to the player through that fib. */
  method ResolveRegistered(g: Globals, w: World, k: Block, t: Fib, pos: Pos, state: BlockState, player: Player)
    requires state.block == k
    modifies g`pending, g`allFibBlocks, w, w.state
  {
    g.Register(w, k, t);
    g.Put(w, k, pos);
    assert pos in Positions(w.state.blocks, k);
    var r := g.Get(state, player, w);
    assert r == t(state, player);
  }

  /** Positions pending when a world is constructed are popped by the first
      preloaded registration, before any fib of that world exists, so they
      are notified but not tracked. */
  method PendingBeforePreload(g: Globals, d: Dimension, b: Block, f: Fib, pos: Pos, blockAt: Pos -> Block)
    requires d !in g.preLoad && g.pending == []
    modifies g
  {
    g.RegisterForDimension(d, b, f);
    g.PutPending(b, pos);
    assert g.pending == [(b, pos)];
    var w := new World(d, blockAt);
    var _ := g.RegisterPreloadedFibs(w);
    DrainContents(map[], {}, [(b, pos)], b);
    assert Positions(w.state.blocks, b) == {};
    assert w.updates == [pos];
  }

  /** Saving a world's instance and loading the tag into another instance
      reproduces the tracked positions; nothing the other instance tracked
      before survives. */
  method SaveAndLoad(s: Store, t: Store, id: Block -> string, lookup: string -> Block)
    requires Inverse(id, lookup)
    requires s != t
    modifies t`blocks
  {
    var tag := s.ToTag(map[], id);
    t.FromTag(tag, lookup);
    RoundTrip(s.blocks, tag[SaveKey], t.blocks, id, lookup);
    assert t.blocks == s.blocks;
  }
}
