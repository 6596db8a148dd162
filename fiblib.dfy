/** The static side of FibLib: the process-wide preload lists, the set of
    blocks that ever had a fib, the stack of positions put before any world
    existed, and the API methods, each of which goes through the world's
    instance (getInstance). */
module FibLib {
  import opened Tracking
  import opened FibStore

  /** The parts of a ServerWorld the library uses. */
  class World {
    /** The world's dimension type. */
    const dimension: Dimension
    /** The block at each position (world.getBlockState(pos).getBlock()). */
    const blockAt: Pos -> Block
    /** The FibLib instance the persistent state manager holds, if any yet. */
    var state: Store?
    /** Every position passed to the chunk manager's markForUpdate, in order. */
    var updates: seq<Pos>

    constructor (dimension: Dimension, blockAt: Pos -> Block)
      ensures this.dimension == dimension && this.blockAt == blockAt
      ensures state == null && updates == []
    {
      this.dimension := dimension;
      this.blockAt := blockAt;
      state := null;
      updates := [];
    }

    /** The tracked positions of the world's instance; none before it exists. */
    ghost function Blocks(): map<Block, set<Pos>>
      reads this, state
    {
      if state == null then map[] else state.blocks
    }

    /** The fibs of the world's instance; none before it exists. */
    ghost function Fibs(): map<Block, Fib>
      reads this, state
    {
      if state == null then map[] else state.fibs
    }

    /** getOrCreate: the instance held for this world, made empty on first use. */
    method GetOrCreate() returns (s: Store)
      modifies this`state
      ensures state == s
      ensures old(state) != null ==> s == old(state)
      ensures old(state) == null ==> fresh(s)
      ensures s.blocks == old(Blocks()) && s.fibs == old(Fibs())
    {
      if state == null {
        state := new Store();
      }
      s := state;
    }
  }

  /** The drained stack's entries in the order they were popped and tracked:
      `after` is `before` followed by an arrangement of the bag `bag`. */
  ghost predicate AppendsBag(after: seq<Pos>, before: seq<Pos>, bag: multiset<Pos>)
  {
    |before| <= |after| && after[..|before|] == before && multiset(after[|before|..]) == bag
  }

  /** The static fields of FibLib and its static API. */
  class Globals {
    /** PRE_LOAD: registrations made for a dimension type before its world existed. */
    var preLoad: map<Dimension, seq<(Block, Fib)>>
    /** ALL_FIB_BLOCKS: every block that was ever given a fib, in any world. */
    var allFibBlocks: set<Block>
    /** PENDING_OVERWORLD_BLOCKS: a stack whose top is the last element. */
    var pending: seq<(Block, Pos)>
    /** BlockFib.DEFAULT, the fib of blocks that have none. */
    const defaultFib: Fib

    /** The state at process start. */
    constructor (defaultFib: Fib)
      ensures preLoad == map[] && allFibBlocks == {} && pending == []
      ensures this.defaultFib == defaultFib
    {
      preLoad := map[];
      allFibBlocks := {};
      pending := [];
      this.defaultFib := defaultFib;
    }

    /** getInstance: fetch (or create) the world's instance, then pop the whole
        pending stack into it, notifying each popped position; `drained` is
        the number of entries popped. */
    method GetInstance(world: World) returns (inst: Store, drained: nat)
      modifies this`pending, world`state, world`updates, world.state
      ensures world.state == inst
      ensures old(world.state) != null ==> inst == old(world.state)
      ensures old(world.state) == null ==> fresh(inst)
      ensures inst.fibs == old(world.Fibs())
      ensures inst.blocks == Drain(old(world.Blocks()), inst.fibs.Keys, old(pending))
      ensures pending == [] && drained == |old(pending)|
      ensures world.updates == old(world.updates) + Notified(old(pending))
    {
      inst := world.GetOrCreate();
      drained := 0;
      while pending != []
        invariant world.state == inst
        invariant drained + |pending| == |old(pending)|
        invariant pending == old(pending)[..|pending|]
        invariant inst.fibs == old(world.Fibs())
        invariant inst.blocks == Drain(old(world.Blocks()), inst.fibs.Keys, old(pending)[|pending|..])
        invariant world.updates == old(world.updates) + Notified(old(pending)[|pending|..])
        decreases |pending|
      {
        ghost var popped := old(pending)[|pending|..];
        var top := pending[|pending| - 1];
        pending := pending[..|pending| - 1];
        assert old(pending)[|pending|..] == [top] + popped;
        inst.PutWithInstance(top.0, top.1);
        world.updates := world.updates + [top.1];
        drained := drained + 1;
      }
    }

    /** register(world, block, fib): after getInstance, `block` gets `fib` in
        this world, replacing any earlier one, and joins ALL_FIB_BLOCKS. */
    method Register(world: World, block: Block, fib: Fib)
      modifies this`pending, this`allFibBlocks, world`state, world`updates, world.state
      ensures world.state != null
      ensures old(world.state) != null ==> world.state == old(world.state)
      ensures old(world.state) == null ==> fresh(world.state)
      ensures world.state.fibs == old(world.Fibs())[block := fib]
      ensures world.state.blocks == Drain(old(world.Blocks()), old(world.Fibs()).Keys, old(pending))
      ensures pending == [] && world.updates == old(world.updates) + Notified(old(pending))
      ensures allFibBlocks == old(allFibBlocks) + {block}
    {
      var inst, _ := GetInstance(world);
      inst.fibs := inst.fibs[block := fib];
      allFibBlocks := allFibBlocks + {block};
    }

    /** register(dimensionType, block, fib): append the registration to the
        dimension's preload list (made empty first if absent); `block` joins
        ALL_FIB_BLOCKS. No world is touched. */
    method RegisterForDimension(dimension: Dimension, block: Block, fib: Fib)
      modifies this`preLoad, this`allFibBlocks
      ensures dimension in preLoad
      ensures preLoad[dimension] == (if dimension in old(preLoad) then old(preLoad)[dimension] else []) + [(block, fib)]
      ensures forall d :: d != dimension ==> (d in preLoad <==> d in old(preLoad))
      ensures forall d :: d != dimension && d in preLoad ==> preLoad[d] == old(preLoad)[d]
      ensures allFibBlocks == old(allFibBlocks) + {block}
    {
      if dimension !in preLoad {
        preLoad := preLoad[dimension := []];
      }
      preLoad := preLoad[dimension := preLoad[dimension] + [(block, fib)]];
      allFibBlocks := allFibBlocks + {block};
    }

    /** registerPreloadedFibs: register every preloaded entry of the world's
        dimension type, in list order, through register(world, ...). The list
        is kept, so every world of that dimension type gets the same fibs.
        With no entries nothing happens at all, not even getInstance;
        `count` is the number of entries registered. */
    method RegisterPreloadedFibs(world: World) returns (count: nat)
      modifies this`pending, this`allFibBlocks, world`state, world`updates, world.state
      ensures preLoad == old(preLoad)
      ensures var list := if world.dimension in preLoad then preLoad[world.dimension] else [];
        && count == |list|
        && (list == [] ==>
              && world.state == old(world.state) && world.updates == old(world.updates)
              && pending == old(pending) && allFibBlocks == old(allFibBlocks)
              && (world.state != null ==> world.state.blocks == old(world.state.blocks) && world.state.fibs == old(world.state.fibs)))
        && (list != [] ==>
              && world.state != null
              && (old(world.state) != null ==> world.state == old(world.state))
              && (old(world.state) == null ==> fresh(world.state))
              && world.state.fibs == RegisterAll(old(world.Fibs()), list)
              && world.state.blocks == Drain(old(world.Blocks()), old(world.Fibs()).Keys, old(pending))
              && pending == [] && world.updates == old(world.updates) + Notified(old(pending))
              && allFibBlocks == old(allFibBlocks) + BlocksOf(list))
    {
      count := 0;
      if world.dimension in preLoad {
        var list := preLoad[world.dimension];
        for i := 0 to |list|
          invariant count == i
          invariant i == 0 ==>
            && world.state == old(world.state) && world.updates == old(world.updates)
            && pending == old(pending) && allFibBlocks == old(allFibBlocks)
            && (world.state != null ==>
                  world.state.blocks == old(world.state.blocks) && world.state.fibs == old(world.state.fibs))
          invariant i > 0 ==>
            && world.state != null
            && (old(world.state) != null ==> world.state == old(world.state))
            && (old(world.state) == null ==> fresh(world.state))
            && world.state.fibs == RegisterAll(old(world.Fibs()), list[..i])
            && world.state.blocks == Drain(old(world.Blocks()), old(world.Fibs()).Keys, old(pending))
            && pending == [] && world.updates == old(world.updates) + Notified(old(pending))
            && allFibBlocks == old(allFibBlocks) + BlocksOf(list[..i])
        {
          assert list[..i + 1][..i] == list[..i];
          assert BlocksOf(list[..i + 1]) == BlocksOf(list[..i]) + {list[i].0} by {
            assert forall j :: 0 <= j < i + 1 ==> list[..i + 1][j] == list[j];
          }
          Register(world, list[i].0, list[i].1);
          count := count + 1;
        }
        assert list[..|list|] == list;
      }
    }

    /** update(world): notify every tracked position of the world (after
        getInstance); `count` is how many were notified, the sum of the sizes
        of all the sets. */
    method Update(world: World) returns (count: nat)
      modifies this`pending, world`state, world`updates, world.state
      ensures world.state != null && world.state.fibs == old(world.Fibs())
      ensures old(world.state) != null ==> world.state == old(world.state)
      ensures old(world.state) == null ==> fresh(world.state)
      ensures world.state.blocks == Drain(old(world.Blocks()), old(world.Fibs()).Keys, old(pending))
      ensures pending == []
      ensures AppendsBag(world.updates, old(world.updates) + Notified(old(pending)),
                         Tracked(world.state.blocks, world.state.blocks.Keys))
      ensures count == |Tracked(world.state.blocks, world.state.blocks.Keys)|
      ensures count == SizeSum(world.state.blocks, world.state.blocks.Keys)
    {
      var inst, _ := GetInstance(world);
      ghost var before := world.updates;
      var notes := inst.AllTracked();
      world.updates := world.updates + notes;
      assert world.updates[|before|..] == notes;
      count := |notes|;
      TrackedSize(inst.blocks, inst.blocks.Keys);
    }

    /** update(world, block): notify the positions tracked for `block`;
        nothing at all when it has no entry. */
    method UpdateBlock(world: World, block: Block) returns (count: nat)
      modifies this`pending, world`state, world`updates, world.state
      ensures world.state != null && world.state.fibs == old(world.Fibs())
      ensures old(world.state) != null ==> world.state == old(world.state)
      ensures old(world.state) == null ==> fresh(world.state)
      ensures world.state.blocks == Drain(old(world.Blocks()), old(world.Fibs()).Keys, old(pending))
      ensures pending == []
      ensures AppendsBag(world.updates, old(world.updates) + Notified(old(pending)),
                         multiset(Positions(world.state.blocks, block)))
      ensures count == |Positions(world.state.blocks, block)|
    {
      var inst, _ := GetInstance(world);
      count := 0;
      if block in inst.blocks {
        ghost var before := world.updates;
        var notes := Enumerate(inst.blocks[block]);
        world.updates := world.updates + notes;
        assert world.updates[|before|..] == notes;
        assert |multiset(notes)| == |notes| && |multiset(inst.blocks[block])| == |inst.blocks[block]|;
        count := |notes|;
      } else {
        assert world.updates[|world.updates|..] == [];
      }
    }

    /** The two list overloads of update (varargs and Collection): notify the
        positions of every listed block that has an entry, a block listed
        twice being notified twice. */
    method UpdateBlocks(world: World, blocks: seq<Block>) returns (count: nat)
      modifies this`pending, world`state, world`updates, world.state
      ensures world.state != null && world.state.fibs == old(world.Fibs())
      ensures old(world.state) != null ==> world.state == old(world.state)
      ensures old(world.state) == null ==> fresh(world.state)
      ensures world.state.blocks == Drain(old(world.Blocks()), old(world.Fibs()).Keys, old(pending))
      ensures pending == []
      ensures AppendsBag(world.updates, old(world.updates) + Notified(old(pending)),
                         ListedTracked(world.state.blocks, blocks))
      ensures count == |ListedTracked(world.state.blocks, blocks)|
    {
      var inst, _ := GetInstance(world);
      ghost var before := world.updates;
      var notes := inst.ListedPositions(blocks);
      world.updates := world.updates + notes;
      assert world.updates[|before|..] == notes;
      count := |notes|;
    }

    /** put(world, block, pos): getInstance, then putWithInstance. */
    method Put(world: World, block: Block, pos: Pos)
      modifies this`pending, world`state, world`updates, world.state
      ensures world.state != null && world.state.fibs == old(world.Fibs())
      ensures old(world.state) != null ==> world.state == old(world.state)
      ensures old(world.state) == null ==> fresh(world.state)
      ensures world.state.blocks
           == Track(Drain(old(world.Blocks()), old(world.Fibs()).Keys, old(pending)), old(world.Fibs()).Keys, block, pos)
      ensures pending == [] && world.updates == old(world.updates) + Notified(old(pending))
    {
      var inst, _ := GetInstance(world);
      inst.PutWithInstance(block, pos);
    }

    /** put(world, state, pos): only the state's block matters. */
    method PutState(world: World, state: BlockState, pos: Pos)
      modifies this`pending, world`state, world`updates, world.state
      ensures world.state != null && world.state.fibs == old(world.Fibs())
      ensures old(world.state) != null ==> world.state == old(world.state)
      ensures old(world.state) == null ==> fresh(world.state)
      ensures world.state.blocks
           == Track(Drain(old(world.Blocks()), old(world.Fibs()).Keys, old(pending)), old(world.Fibs()).Keys, state.block, pos)
      ensures pending == [] && world.updates == old(world.updates) + Notified(old(pending))
    {
      Put(world, state.block, pos);
    }

    /** put(block, pos) with no world: push onto the pending stack when some
        world ever gave `block` a fib; otherwise the call is dropped. */
    method PutPending(block: Block, pos: Pos)
      modifies this`pending
      ensures block in allFibBlocks ==> pending == old(pending) + [(block, pos)]
      ensures block !in allFibBlocks ==> pending == old(pending)
    {
      if block in allFibBlocks {
        pending := pending + [(block, pos)];
      }
    }

    /** remove(world, pos): getInstance, then removeWithInstance with the
        block the world has at `pos`. */
    method Remove(world: World, pos: Pos)
      modifies this`pending, world`state, world`updates, world.state
      ensures world.state != null && world.state.fibs == old(world.Fibs())
      ensures old(world.state) != null ==> world.state == old(world.state)
      ensures old(world.state) == null ==> fresh(world.state)
      ensures world.state.blocks
           == Untrack(Drain(old(world.Blocks()), old(world.Fibs()).Keys, old(pending)), world.blockAt(pos), pos)
      ensures pending == [] && world.updates == old(world.updates) + Notified(old(pending))
    {
      var inst, _ := GetInstance(world);
      inst.RemoveWithInstance(world.blockAt(pos), pos);
    }

    /** get(state, player): what `player` is told `state` is. `world` is the
        player's world, null when the instance cannot be reached, in which
        case the state itself is returned. */
    method Get(state: BlockState, player: Player, world: World?) returns (r: BlockState)
      modifies this`pending, if world == null then {} else {world, world.state}
      ensures world == null ==> r == state && pending == old(pending)
      ensures world != null ==>
        && world.state != null && world.state.fibs == old(world.Fibs())
        && (old(world.state) != null ==> world.state == old(world.state))
        && (old(world.state) == null ==> fresh(world.state))
        && world.state.blocks == Drain(old(world.Blocks()), old(world.Fibs()).Keys, old(pending))
        && pending == [] && world.updates == old(world.updates) + Notified(old(pending))
        && (state.block in old(world.Fibs()) ==> r == old(world.Fibs())[state.block](state, player))
        && (state.block !in old(world.Fibs()) ==> r == defaultFib(state, player))
    {
      if world == null {
        return state;
      }
      var inst, _ := GetInstance(world);
      r := inst.GetWithInstance(state, player, defaultFib);
    }
  }
}
