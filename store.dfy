/** The per-world FibLib instance (the PersistentState held by each world):
    which positions are tracked for each block, which fib each block has, and
    how the tracked positions are saved to and loaded from the world's tag. */
module FibStore {
  import opened Tracking

  /** Some element of a non-empty set. */
  method Pick<T>(s: set<T>) returns (x: T)
    requires s != {}
    ensures x in s
  {
    x :| x in s;
  }

  /** Iterating over a LongSet: every element once, in some order. */
  method Enumerate(s: set<Pos>) returns (r: seq<Pos>)
    ensures multiset(r) == multiset(s)
  {
    r := [];
    var rest := s;
    while rest != {}
      invariant rest <= s
      invariant multiset(r) + multiset(rest) == multiset(s)
      decreases rest
    {
      var x := Pick(rest);
      assert multiset(rest) == multiset(rest - {x}) + multiset{x};
      r := r + [x];
      rest := rest - {x};
    }
  }

  class Store {
    /** Tracked positions per block (the `blocks` map). */
    var blocks: map<Block, set<Pos>>
    /** The fib registered for each block in this world (the `fibs` map). */
    var fibs: map<Block, Fib>

    /** A new instance tracks nothing and has no fibs. */
    constructor ()
      ensures blocks == map[] && fibs == map[]
    {
      blocks := map[];
      fibs := map[];
    }

    /** putWithInstance: start tracking `pos` for `block` if `block` has a fib
        here; otherwise nothing happens. */
    method PutWithInstance(block: Block, pos: Pos)
      modifies this`blocks
      ensures blocks == Track(old(blocks), fibs.Keys, block, pos)
      ensures block in fibs ==> Positions(blocks, block) == Positions(old(blocks), block) + {pos}
      ensures block !in fibs ==> blocks == old(blocks)
      ensures forall k :: k != block ==> Positions(blocks, k) == Positions(old(blocks), k)
    {
      if block in fibs {
        if block !in blocks {
          blocks := blocks[block := {}];
        }
        blocks := blocks[block := blocks[block] + {pos}];
      }
    }

    /** getWithInstance: the block's fib, or `dflt` (BlockFib.DEFAULT) when it
        has none, applied to the state and the player. */
    function GetWithInstance(state: BlockState, player: Player, dflt: Fib): (r: BlockState)
      reads this
      ensures state.block in fibs ==> r == fibs[state.block](state, player)
      ensures state.block !in fibs ==> r == dflt(state, player)
    {
      if state.block in fibs then fibs[state.block](state, player) else dflt(state, player)
    }

    /** removeWithInstance: `current` is the block the world has at `pos`;
        `pos` is dropped from that block's entry, and only from it. */
    method RemoveWithInstance(current: Block, pos: Pos)
      modifies this`blocks
      ensures blocks == Untrack(old(blocks), current, pos)
      ensures blocks.Keys == old(blocks).Keys
      ensures Positions(blocks, current) == Positions(old(blocks), current) - {pos}
      ensures forall k :: k != current ==> Positions(blocks, k) == Positions(old(blocks), k)
    {
      if current in blocks {
        blocks := blocks[current := blocks[current] - {pos}];
      }
    }

    /** The positions update(world) notifies: every position of every entry. */
    method AllTracked() returns (notes: seq<Pos>)
      ensures multiset(notes) == Tracked(blocks, blocks.Keys)
    {
      notes := [];
      var todo := blocks.Keys;
      while todo != {}
        invariant todo <= blocks.Keys
        invariant multiset(notes) + Tracked(blocks, todo) == Tracked(blocks, blocks.Keys)
        decreases todo
      {
        var b := Pick(todo);
        TrackedPick(blocks, todo, b);
        var positions := Enumerate(blocks[b]);
        notes := notes + positions;
        todo := todo - {b};
      }
    }

    /** The positions the list overloads of update notify: the positions of
        each listed block that has an entry, in list order. */
    method ListedPositions(list: seq<Block>) returns (notes: seq<Pos>)
      ensures multiset(notes) == ListedTracked(blocks, list)
    {
      notes := [];
      for i := 0 to |list|
        invariant multiset(notes) == ListedTracked(blocks, list[..i])
      {
        assert list[..i + 1][..i] == list[..i];
        if list[i] in blocks {
          var positions := Enumerate(blocks[list[i]]);
          notes := notes + positions;
        }
      }
      assert list[..|list|] == list;
    }

    /** toTag: `tag` with the library's compound stored under the save key,
        one long array per entry of `blocks`; `id` is the block registry's
        identifier of a block. */
    method ToTag(tag: map<string, FibTag>, id: Block -> string) returns (r: map<string, FibTag>)
      ensures r.Keys == tag.Keys + {SaveKey}
      ensures forall k :: k in tag && k != SaveKey ==> r[k] == tag[k]
      ensures IsTagOf(r[SaveKey], blocks, id)
    {
      var fibTag: FibTag := map[];
      var todo := blocks.Keys;
      while todo != {}
        invariant todo <= blocks.Keys
        invariant IsTagOf(fibTag, map b | b in blocks && b !in todo :: blocks[b], id)
        decreases todo
      {
        var b := Pick(todo);
        var positions := Enumerate(blocks[b]);
        ghost var before := fibTag;
        fibTag := fibTag[id(b) := positions];
        todo := todo - {b};
        ghost var done := map b | b in blocks && b !in todo :: blocks[b];
        assert fibTag.Keys == (set c | c in done :: id(c));
        forall k | k in fibTag
          ensures exists c :: c in done && id(c) == k && multiset(fibTag[k]) == multiset(done[c])
        {
          if k == id(b) {
            assert b in done;
          } else {
            var c :| c in blocks && c !in todo + {b} && id(c) == k && multiset(before[k]) == multiset(blocks[c]);
            assert c in done;
          }
        }
      }
      assert (map b | b in blocks && b !in todo :: blocks[b]) == blocks;
      r := tag[SaveKey := fibTag];
    }

    /** fromTag: `blocks` is cleared and rebuilt from the compound under the
        save key (an empty compound when the key is absent); `lookup` is the
        block registry's block for an identifier. The fibs are not saved and
        stay as they are. */
    method FromTag(tag: map<string, FibTag>, lookup: string -> Block)
      modifies this`blocks
      ensures IsLoadOf(blocks, if SaveKey in tag then tag[SaveKey] else map[], lookup)
    {
      blocks := map[];
      var fibTag := if SaveKey in tag then tag[SaveKey] else map[];
      var todo := fibTag.Keys;
      while todo != {}
        invariant todo <= fibTag.Keys
        invariant IsLoadOf(blocks, map k | k in fibTag && k !in todo :: fibTag[k], lookup)
        decreases todo
      {
        var k := Pick(todo);
        ghost var before := blocks;
        blocks := blocks[lookup(k) := Elements(fibTag[k])];
        todo := todo - {k};
        ghost var done := map k | k in fibTag && k !in todo :: fibTag[k];
        assert blocks.Keys == (set j | j in done :: lookup(j));
        forall b | b in blocks
          ensures exists j :: j in done && lookup(j) == b && blocks[b] == Elements(done[j])
        {
          if b == lookup(k) {
            assert k in done;
          } else {
            var j :| j in fibTag && j !in todo + {k} && lookup(j) == b && before[b] == Elements(fibTag[j]);
            assert j in done;
          }
        }
      }
      assert (map k | k in fibTag && k !in todo :: fibTag[k]) == fibTag;
    }
  }
}
