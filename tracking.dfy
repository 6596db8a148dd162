/** Values of the FibLib model and the specification functions that describe
    what the per-world store and the process-wide registries hold after each
    operation, with the lemmas that state their properties. */
module Tracking {

  /** A block type. The host compares blocks by identity; the handle stands
      for that identity. */
  datatype Block = Block(handle: nat)

  /** A block state: the block it belongs to and the rest of the state,
      which a fib may look at but this library never does. */
  datatype BlockState = BlockState(block: Block, properties: nat)

  /** The player a fib lies to. */
  datatype Player = Player(handle: nat)

  /** The dimension type a world belongs to (the key of the preload lists). */
  datatype Dimension = Dimension(handle: nat)

  /** A block position, already in its encoded `long` form (BlockPos.asLong). */
  type Pos = int

  /** A fib: what a player is told about a block state. */
  type Fib = (BlockState, Player) -> BlockState

  /** The persisted compound stored under the save key: one long array per
      block identifier. */
  type FibTag = map<string, seq<Pos>>

  /** The key under which a world's tag holds the library's compound. */
  const SaveKey: string := "fiblib"

  // ---------------------------------------------------------------------
  // Tracked positions of one world

  /** The positions tracked for `b`, empty when `b` has no entry. */
  function Positions(blocks: map<Block, set<Pos>>, b: Block): set<Pos>
  {
    if b in blocks then blocks[b] else {}
  }

  /** putWithInstance: track `p` for `b`, but only when `b` has a fib. */
  function Track(blocks: map<Block, set<Pos>>, registered: set<Block>, b: Block, p: Pos): map<Block, set<Pos>>
  {
    if b in registered then blocks[b := Positions(blocks, b) + {p}] else blocks
  }

  /** removeWithInstance: forget `p` in the entry of `current`, if there is one. */
  function Untrack(blocks: map<Block, set<Pos>>, current: Block, p: Pos): map<Block, set<Pos>>
  {
    if current in blocks then blocks[current := blocks[current] - {p}] else blocks
  }

  lemma TrackGates(blocks: map<Block, set<Pos>>, registered: set<Block>, b: Block, p: Pos)
    ensures b !in registered ==> Track(blocks, registered, b, p) == blocks
    ensures b in registered ==> Positions(Track(blocks, registered, b, p), b) == Positions(blocks, b) + {p}
    ensures Track(blocks, registered, b, p).Keys == blocks.Keys + (if b in registered then {b} else {})
    ensures forall k :: k != b ==> Positions(Track(blocks, registered, b, p), k) == Positions(blocks, k)
  {
  }

  lemma TrackIdempotent(blocks: map<Block, set<Pos>>, registered: set<Block>, b: Block, p: Pos)
    ensures Track(Track(blocks, registered, b, p), registered, b, p) == Track(blocks, registered, b, p)
  {
  }

  lemma UntrackLocal(blocks: map<Block, set<Pos>>, current: Block, p: Pos)
    ensures Untrack(blocks, current, p).Keys == blocks.Keys
    ensures Positions(Untrack(blocks, current, p), current) == Positions(blocks, current) - {p}
    ensures forall k :: k != current ==> Positions(Untrack(blocks, current, p), k) == Positions(blocks, k)
  {
  }

  // ---------------------------------------------------------------------
  // The pending stack (PENDING_OVERWORLD_BLOCKS). Its top is the last element.

  /** Popping the whole stack and tracking every entry: the top (the last
      element) is tracked first, the bottom (`stack[0]`) last. */
  function Drain(blocks: map<Block, set<Pos>>, registered: set<Block>, stack: seq<(Block, Pos)>): map<Block, set<Pos>>
  {
    if stack == [] then blocks
    else Track(Drain(blocks, registered, stack[1..]), registered, stack[0].0, stack[0].1)
  }

  /** The positions passed to markForUpdate while the stack is popped. */
  function Notified(stack: seq<(Block, Pos)>): seq<Pos>
  {
    if stack == [] then [] else Notified(stack[1..]) + [stack[0].1]
  }

  /** The positions pending for `b`. */
  function PendingFor(stack: seq<(Block, Pos)>, b: Block): set<Pos>
  {
    set e | e in stack && e.0 == b :: e.1
  }

  /** Draining adds exactly the pending positions of registered blocks; the
      order of the stack does not matter to the result. */
  lemma {:induction false} DrainContents(blocks: map<Block, set<Pos>>, registered: set<Block>, stack: seq<(Block, Pos)>, b: Block)
    ensures Positions(Drain(blocks, registered, stack), b)
         == Positions(blocks, b) + (if b in registered then PendingFor(stack, b) else {})
    ensures b in Drain(blocks, registered, stack)
        <==> b in blocks || (b in registered && exists e :: e in stack && e.0 == b)
  {
    if stack != [] {
      DrainContents(blocks, registered, stack[1..], b);
      var e := stack[0];
      assert stack == [e] + stack[1..];
      assert PendingFor(stack, b) == (if e.0 == b then {e.1} else {}) + PendingFor(stack[1..], b);
      assert (exists x :: x in stack && x.0 == b) <==> e.0 == b || (exists x :: x in stack[1..] && x.0 == b);
    }
  }

  /** Draining only ever creates entries for blocks that have a fib. */
  lemma {:induction false} DrainGated(blocks: map<Block, set<Pos>>, registered: set<Block>, stack: seq<(Block, Pos)>)
    ensures blocks.Keys <= Drain(blocks, registered, stack).Keys <= blocks.Keys + registered
  {
    if stack != [] {
      DrainGated(blocks, registered, stack[1..]);
    }
  }

  /** markForUpdate is called once per entry, most recently pushed first. */
  lemma {:induction false} NotifiedIsPopOrder(stack: seq<(Block, Pos)>)
    ensures |Notified(stack)| == |stack|
    ensures forall k :: 0 <= k < |stack| ==> Notified(stack)[k] == stack[|stack| - 1 - k].1
  {
    if stack != [] {
      NotifiedIsPopOrder(stack[1..]);
    }
  }

  // ---------------------------------------------------------------------
  // Preloaded registrations (PRE_LOAD)

  /** Registering every entry of a preload list in list order. */
  function RegisterAll(fibs: map<Block, Fib>, list: seq<(Block, Fib)>): map<Block, Fib>
  {
    if list == [] then fibs
    else RegisterAll(fibs, list[..|list| - 1])[list[|list| - 1].0 := list[|list| - 1].1]
  }

  /** The blocks a preload list registers. */
  function BlocksOf(list: seq<(Block, Fib)>): set<Block>
  {
    set i | 0 <= i < |list| :: list[i].0
  }

  lemma {:induction false} RegisterAllKeys(fibs: map<Block, Fib>, list: seq<(Block, Fib)>)
    ensures RegisterAll(fibs, list).Keys == fibs.Keys + BlocksOf(list)
  {
    if list != [] {
      var init := list[..|list| - 1];
      RegisterAllKeys(fibs, init);
      assert list == init + [list[|list| - 1]];
      assert BlocksOf(list) == BlocksOf(init) + {list[|list| - 1].0};
    }
  }

  /** The last entry for a block wins. */
  lemma {:induction false} RegisterAllLastWins(fibs: map<Block, Fib>, list: seq<(Block, Fib)>, j: nat)
    requires j < |list|
    requires forall k :: j < k < |list| ==> list[k].0 != list[j].0
    ensures list[j].0 in RegisterAll(fibs, list)
    ensures RegisterAll(fibs, list)[list[j].0] == list[j].1
  {
    if j < |list| - 1 {
      RegisterAllLastWins(fibs, list[..|list| - 1], j);
    }
  }

  /** A block the list does not mention keeps the fib it had. */
  lemma {:induction false} RegisterAllOthers(fibs: map<Block, Fib>, list: seq<(Block, Fib)>, b: Block)
    requires forall k :: 0 <= k < |list| ==> list[k].0 != b
    ensures (b in RegisterAll(fibs, list)) == (b in fibs)
    ensures b in fibs ==> RegisterAll(fibs, list)[b] == fibs[b]
  {
    if list != [] {
      RegisterAllOthers(fibs, list[..|list| - 1], b);
    }
  }

  // ---------------------------------------------------------------------
  // Refresh (the update overloads)

  /** Every tracked position of the listed keys, counted once per key that
      holds it: the bag of positions update(world) notifies. */
  ghost function Tracked(blocks: map<Block, set<Pos>>, keys: set<Block>): multiset<Pos>
    decreases |keys|
  {
    if keys == {} then multiset{}
    else
      var k :| k in keys;
      multiset(Positions(blocks, k)) + Tracked(blocks, keys - {k})
  }

  /** The positions notified when the blocks of `list` are refreshed one after
      another: a block listed twice is refreshed twice. */
  ghost function ListedTracked(blocks: map<Block, set<Pos>>, list: seq<Block>): multiset<Pos>
  {
    if list == [] then multiset{}
    else ListedTracked(blocks, list[..|list| - 1]) + multiset(Positions(blocks, list[|list| - 1]))
  }

  /** Tracked does not depend on which key it takes apart first. */
  lemma {:induction false} TrackedPick(blocks: map<Block, set<Pos>>, keys: set<Block>, k: Block)
    requires k in keys
    ensures Tracked(blocks, keys) == multiset(Positions(blocks, k)) + Tracked(blocks, keys - {k})
    decreases |keys|
  {
    var j :| j in keys && Tracked(blocks, keys) == multiset(Positions(blocks, j)) + Tracked(blocks, keys - {j});
    if j != k {
      TrackedPick(blocks, keys - {j}, k);
      TrackedPick(blocks, keys - {k}, j);
      assert keys - {j} - {k} == keys - {k} - {j};
    }
  }

  /** The sum of the sizes of the sets of the listed keys. */
  ghost function SizeSum(blocks: map<Block, set<Pos>>, keys: set<Block>): nat
    decreases |keys|
  {
    if keys == {} then 0
    else
      var k :| k in keys;
      |Positions(blocks, k)| + SizeSum(blocks, keys - {k})
  }

  /** The number of notified positions is the sum of the set sizes. */
  lemma {:induction false} TrackedSize(blocks: map<Block, set<Pos>>, keys: set<Block>)
    ensures |Tracked(blocks, keys)| == SizeSum(blocks, keys)
    decreases |keys|
  {
    if keys != {} {
      var k :| k in keys && SizeSum(blocks, keys) == |Positions(blocks, k)| + SizeSum(blocks, keys - {k});
      TrackedPick(blocks, keys, k);
      TrackedSize(blocks, keys - {k});
    }
  }

  /** The blocks a list of blocks names. */
  function Kinds(list: seq<Block>): set<Block>
  {
    set b | b in list
  }

  /** Without repetitions, the last block of a list is not among the others. */
  lemma DistinctLast(list: seq<Block>)
    requires list != []
    requires forall i, j :: 0 <= i < j < |list| ==> list[i] != list[j]
    ensures Kinds(list) - {list[|list| - 1]} == Kinds(list[..|list| - 1])
  {
  }

  /** Refreshing a list naming every tracked block exactly once notifies the
      same positions as refreshing the whole world. */
  lemma {:induction false} ListedCoversAll(blocks: map<Block, set<Pos>>, list: seq<Block>)
    requires forall i, j :: 0 <= i < j < |list| ==> list[i] != list[j]
    ensures ListedTracked(blocks, list) == Tracked(blocks, Kinds(list))
  {
    if list == [] {
      assert Kinds(list) == {};
    } else {
      ListedCoversAll(blocks, list[..|list| - 1]);
      DistinctLast(list);
      TrackedPick(blocks, Kinds(list), list[|list| - 1]);
    }
  }

  // ---------------------------------------------------------------------
  // Persistence (toTag / fromTag)

  /** The set of positions a long array holds. */
  function Elements(s: seq<Pos>): set<Pos>
  {
    set x | x in s
  }

  /** `lookup` undoes `id`: the block registry maps an identifier back to its block. */
  ghost predicate Inverse(id: Block -> string, lookup: string -> Block)
  {
    forall b :: lookup(id(b)) == b
  }

  /** `tag` is what toTag writes for `blocks`: one key per entry, empty sets
      included, each holding the entry's positions once each. */
  ghost predicate IsTagOf(tag: FibTag, blocks: map<Block, set<Pos>>, id: Block -> string)
  {
    && tag.Keys == (set b | b in blocks :: id(b))
    && forall k :: k in tag ==> exists b :: b in blocks && id(b) == k && multiset(tag[k]) == multiset(blocks[b])
  }

  /** `blocks` is what fromTag rebuilds from `tag`: nothing but the tag's entries. */
  ghost predicate IsLoadOf(blocks: map<Block, set<Pos>>, tag: FibTag, lookup: string -> Block)
  {
    && blocks.Keys == (set k | k in tag :: lookup(k))
    && forall b :: b in blocks ==> exists k :: k in tag && lookup(k) == b && blocks[b] == Elements(tag[k])
  }

  /** A long array whose bag is that of a set holds exactly that set. */
  lemma ElementsOfEnumeration(s: seq<Pos>, positions: set<Pos>)
    requires multiset(s) == multiset(positions)
    ensures Elements(s) == positions
  {
    forall x ensures x in Elements(s) <==> x in positions {
      assert x in s <==> x in multiset(s);
    }
  }

  /** The entry loaded under one identifier is the entry that was saved under it. */
  lemma RoundTripEntry(blocks: map<Block, set<Pos>>, tag: FibTag, loaded: map<Block, set<Pos>>,
                       id: Block -> string, lookup: string -> Block, b: Block)
    requires Inverse(id, lookup)
    requires IsTagOf(tag, blocks, id)
    requires IsLoadOf(loaded, tag, lookup)
    requires b in loaded
    ensures b in blocks && loaded[b] == blocks[b]
  {
    var k :| k in tag && lookup(k) == b && loaded[b] == Elements(tag[k]);
    var b0 :| b0 in blocks && id(b0) == k && multiset(tag[k]) == multiset(blocks[b0]);
    assert lookup(id(b0)) == b0;
    ElementsOfEnumeration(tag[k], blocks[b0]);
  }

  /** Saving and then loading gives back the tracked positions exactly. */
  lemma RoundTrip(blocks: map<Block, set<Pos>>, tag: FibTag, loaded: map<Block, set<Pos>>,
                  id: Block -> string, lookup: string -> Block)
    requires Inverse(id, lookup)
    requires IsTagOf(tag, blocks, id)
    requires IsLoadOf(loaded, tag, lookup)
    ensures loaded == blocks
  {
    forall b | b in blocks ensures b in loaded {
      assert id(b) in tag;
      assert lookup(id(b)) == b;
    }
    forall b | b in loaded ensures b in blocks && loaded[b] == blocks[b] {
      RoundTripEntry(blocks, tag, loaded, id, lookup, b);
    }
  }
}
