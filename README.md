# FibLib in Dafny

FibLib is a Minecraft server library. It lets mods register a *fib* for a block type. A fib is a function from a block state and a player to the block state that player is shown. The world's real data is never changed. For each world the library keeps the positions of the blocks it tracks, so that it can ask the chunk manager to resend them when a fib's decision may have changed. It saves those positions with the world and loads them back.

This project models the whole `FibLib` class:

- **The per-world instance** (`FibStore.Store`): the `blocks` map (block → set of encoded positions) and the `fibs` map (block → fib). It offers `putWithInstance`, `getWithInstance`, `removeWithInstance`, the `toTag`/`fromTag` pair, and the loops that list the tracked positions.
- **The static side** (`FibLib.Globals`): `PRE_LOAD` (dimension type → ordered list of (block, fib)), `ALL_FIB_BLOCKS`, and the stack `PENDING_OVERWORLD_BLOCKS`, whose top is the last element of a `seq`. It also holds every public API method.
- **The parts of a server world the library uses** (`FibLib.World`):
  - the block at each position;
  - the slot of the persistent state manager that holds the world's instance, which `GetOrCreate` fills on first use;
  - the chunk manager's `markForUpdate`, recorded as the sequence `updates` of every position passed to it.
- **The specification functions** (`Tracking`): tracking and untracking one position (`Track`, `Untrack`), draining the stack (`Drain`, `Notified`), applying a preload list (`RegisterAll`), the bag of positions a refresh notifies (`Tracked`, `ListedTracked`), and the relations between a world's positions and its saved tag (`IsTagOf`, `IsLoadOf`). The lemmas beside them state the properties.
- **Clients** (`Scenarios`): methods that chain several calls. They show what a caller can conclude from the contracts alone.

`register(world, …)`, `put(world, …)`, `remove`, `get` and every `update` overload first run `getInstance` on their world, and `getInstance` pops the whole pending stack into that world. `put(Block, pos)` and `register(DimensionType, …)` never call it, and `registerPreloadedFibs` calls it only through its `register` calls, so not at all when the dimension has no list. The model keeps this order. Some consequences:

- `Register`, `Put`, `Remove`, `Get` and every `Update` method first drain the pending stack into the world's `blocks`. Each one's contract says so.
- A pending entry is popped into whichever world is fetched first. Nothing ties it to the world its caller had in mind.
- `registerPreloadedFibs` runs `getInstance` inside its first `register` call. That happens before any fib of the new world exists. So positions pending when a world is built are notified but not tracked. `Scenarios.PendingBeforePreload` shows this.

Points where the code's behaviour may surprise a reader:

- `toTag` writes a key for every entry of `blocks`, including empty sets.
- `fromTag` resolves identifiers with the block registry. This file has no failure path for an unknown identifier.
- The pending stack is a plain `Stack` with no extra locking.
- `get` returns the state itself whenever a `NullPointerException` escapes `getInstance(player).getWithInstance(state, player)`: when the instance cannot be reached, when the registered fib throws one, and when a fib was registered as null (`getOrDefault` returns the null value of a present key). `getOrCreate` always makes an instance.
- The fib of a block without one is `BlockFib.DEFAULT`. It is kept opaque (`Globals.defaultFib`) and is not assumed to be the identity.

## Model

| member | source | states |
|---|---|---|
| `Tracking.TrackGates` | src/main/java/dev/hephaestus/fiblib/FibLib.java:124-129 | tracking a block without a fib changes nothing; with a fib it adds exactly that position to that block's set and creates the key if needed; every other block's set is unchanged |
| `Tracking.TrackIdempotent` | src/main/java/dev/hephaestus/fiblib/FibLib.java:124-129 | tracking the same (block, position) twice gives the same map as tracking it once |
| `Tracking.UntrackLocal` | src/main/java/dev/hephaestus/fiblib/FibLib.java:135-138 | removal keeps the key set, drops the position only from the entry of the block currently at that position, and leaves every other entry alone |
| `Tracking.DrainContents` | src/main/java/dev/hephaestus/fiblib/FibLib.java:58-64 | after the stack is drained, a block's set is its old set plus the positions pending for it, if it has a fib; a key exists afterwards exactly when it existed before or a pending entry named a registered block; stack order does not matter |
| `Tracking.DrainGated` | src/main/java/dev/hephaestus/fiblib/FibLib.java:58-64 | draining never removes a key and only creates keys for blocks that have a fib |
| `Tracking.NotifiedIsPopOrder` | src/main/java/dev/hephaestus/fiblib/FibLib.java:58-64 | one markForUpdate per stack entry, most recently pushed first |
| `Tracking.RegisterAllKeys` | src/main/java/dev/hephaestus/fiblib/FibLib.java:83-93 | applying a preload list gives a fib to exactly the blocks that had one plus the blocks in the list |
| `Tracking.RegisterAllLastWins` | src/main/java/dev/hephaestus/fiblib/FibLib.java:83-93 | the last entry of the list for a block decides that block's fib |
| `Tracking.RegisterAllOthers` | src/main/java/dev/hephaestus/fiblib/FibLib.java:83-93 | a block the list does not mention keeps its fib, or its lack of one |
| `Tracking.TrackedPick` | src/main/java/dev/hephaestus/fiblib/FibLib.java:146-153 | the positions update(world) notifies do not depend on the order in which the map's entries are visited |
| `Tracking.TrackedSize` | src/main/java/dev/hephaestus/fiblib/FibLib.java:146-153 | the number notified is `SizeSum`, the sum of the sizes of all the entries' sets, a position held by two entries counting twice |
| `Tracking.ListedCoversAll` | src/main/java/dev/hephaestus/fiblib/FibLib.java:177-212 | refreshing a repetition-free list of blocks notifies the same bag of positions as refreshing just the blocks it names, whatever their order |
| `Tracking.RoundTripEntry` | src/main/java/dev/hephaestus/fiblib/FibLib.java:97-118 | with an invertible identifier mapping, each loaded entry equals the saved entry of the same block |
| `Tracking.RoundTrip` | src/main/java/dev/hephaestus/fiblib/FibLib.java:97-118 | with an invertible identifier mapping, loading what was saved reproduces `blocks` exactly: same keys, same sets, and nothing else |
| `FibStore.Enumerate` | src/main/java/dev/hephaestus/fiblib/FibLib.java:112 | turning a position set into a long array lists every element exactly once |
| `FibStore.Store.constructor` | src/main/java/dev/hephaestus/fiblib/FibLib.java:35-51 | a new instance has no tracked positions and no fibs |
| `FibStore.Store.PutWithInstance` | src/main/java/dev/hephaestus/fiblib/FibLib.java:124-129 | the new `blocks` is `Track` of the old one: the position is added only when the block has a fib here, and other entries do not change |
| `FibStore.Store.GetWithInstance` | src/main/java/dev/hephaestus/fiblib/FibLib.java:131-133 | the result is the block's own fib applied to the state and player, or the default fib's result when the block has none |
| `FibStore.Store.RemoveWithInstance` | src/main/java/dev/hephaestus/fiblib/FibLib.java:135-138 | the new `blocks` is `Untrack` of the old one: only the entry of the block at that position loses the position, and no key is added or removed |
| `FibStore.Store.AllTracked` | src/main/java/dev/hephaestus/fiblib/FibLib.java:148-151 | the positions listed are, as a bag, every position of every entry |
| `FibStore.Store.ListedPositions` | src/main/java/dev/hephaestus/fiblib/FibLib.java:180-188 | the positions listed are, as a bag, those of each listed block that has an entry, once per listing |
| `FibStore.Store.ToTag` | src/main/java/dev/hephaestus/fiblib/FibLib.java:109-118 | the outer tag gains the save key and keeps its other keys; under the save key there is one identifier per entry of `blocks`, empty sets included, each holding that entry's positions once each |
| `FibStore.Store.FromTag` | src/main/java/dev/hephaestus/fiblib/FibLib.java:97-105 | `blocks` is rebuilt from the compound under the save key (empty when absent) and holds nothing else; the fibs are not touched |
| `FibLib.World.GetOrCreate` | src/main/java/dev/hephaestus/fiblib/FibLib.java:54-56 | the world's existing instance is returned unchanged; if there is none, a fresh empty one is stored and returned |
| `FibLib.Globals.constructor` | src/main/java/dev/hephaestus/fiblib/FibLib.java:30-33 | at process start the preload lists, the registered-block set and the pending stack are empty |
| `FibLib.Globals.GetInstance` | src/main/java/dev/hephaestus/fiblib/FibLib.java:53-71 | the world ends with an instance (the old one or a fresh one); its fibs are unchanged; its `blocks` is the old map drained with the whole stack; the stack is empty; the count equals the stack's former size; one notification per entry, in pop order |
| `FibLib.Globals.Register` | src/main/java/dev/hephaestus/fiblib/FibLib.java:222-226 | after the drain of getInstance, the block's fib in this world is the given one, replacing any earlier one; the block joins the ever-registered set |
| `FibLib.Globals.RegisterForDimension` | src/main/java/dev/hephaestus/fiblib/FibLib.java:234-239 | the entry is appended at the end of the dimension's list, which is started if absent; the lists of other dimensions do not change; the block joins the ever-registered set; no world or pending entry is touched |
| `FibLib.Globals.RegisterPreloadedFibs` | src/main/java/dev/hephaestus/fiblib/FibLib.java:83-93 | with no list or an empty list nothing changes and the count is 0; otherwise the world's fibs are its old fibs with the list applied in order, the drain happens before any of them, the count is the list's length, and the preload lists stay as they were |
| `FibLib.Globals.Update` | src/main/java/dev/hephaestus/fiblib/FibLib.java:146-153 | after the drain, every tracked position is notified once per entry holding it, and the count is their number, the sum of the entries' set sizes (`SizeSum`) |
| `FibLib.Globals.UpdateBlock` | src/main/java/dev/hephaestus/fiblib/FibLib.java:160-170 | after the drain, exactly the positions of that block are notified and counted; none if it has no entry |
| `FibLib.Globals.UpdateBlocks` | src/main/java/dev/hephaestus/fiblib/FibLib.java:177-212 | after the drain, the positions of each listed block that has an entry are notified and counted, a block listed twice counting twice |
| `FibLib.Globals.Put` | src/main/java/dev/hephaestus/fiblib/FibLib.java:265-267 | after the drain, the position is tracked for the block exactly when the block has a fib in that world |
| `FibLib.Globals.PutState` | src/main/java/dev/hephaestus/fiblib/FibLib.java:274-276 | the same as `Put`, for the block of the given state |
| `FibLib.Globals.PutPending` | src/main/java/dev/hephaestus/fiblib/FibLib.java:285-289 | the entry is pushed onto the stack when the block was ever registered anywhere; otherwise the stack is unchanged |
| `FibLib.Globals.Remove` | src/main/java/dev/hephaestus/fiblib/FibLib.java:297-299 | after the drain, the position is removed from the entry of the block the world has there, and only from it |
| `FibLib.Globals.Get` | src/main/java/dev/hephaestus/fiblib/FibLib.java:249-255 | when the instance cannot be reached, the state itself; otherwise, after the drain, the block's fib in the player's world applied to the state and player, or the default fib's result |

## Left out

- Logging (`log`, `LOGGER`) and `markDirty`: they have no effect on the modelled state.
- `BlockPos.asLong` / `BlockPos.fromLong`: positions are already-encoded longs throughout, and the codec's bit layout is not modelled.
- `Registry.BLOCK.getId` / `Registry.BLOCK.get`: they are the functions `id` and `lookup`, given as parameters. The round trip assumes `lookup` inverts `id`. What the registry does with an unknown identifier is not visible in this file and is not modelled.
- The bodies of `BlockFib` and `BlockFib.DEFAULT` are not part of this model. A fib is an opaque function, and the default is an opaque constant.
- `markForUpdate`: it is recorded as an appended position, and the redraw itself is not modelled.
- Reading an instance from disk inside `getOrCreate`: this is the host's persistent state manager. A new instance starts empty, and `FromTag` models the load.
- The `NullPointerException` in `get`: it is modelled as a null world (the instance cannot be reached), not as Java exception semantics. The player-to-world step (`getInstance(ServerPlayerEntity)`, lines 74-76) is folded into that parameter.
- Thread safety of the pending stack: concurrency is not modelled.
- `FibLib.Globals.Update`, `FibLib.Globals.UpdateBlock`, `FibLib.Globals.UpdateBlocks`: the Java methods return nothing. The returned count is the number they log, and it equals the number of `markForUpdate` calls.
- `FibLib.Globals.UpdateBlocks` models both the varargs and the `Collection` overload, whose bodies are the same. The blocks are given as a sequence in iteration order.
- `FibStore.Store.ToTag`, `FibStore.Store.FromTag` and the `Update` methods: iteration over a `HashMap` or `LongSet` has no specified order. So the contracts give the notified positions as a bag and the saved arrays as element bags, not as fixed sequences.
- `FibStore.Store.ToTag`: the `CompoundTag` it receives is updated in place and returned. The model returns the new tag as a value. Other key types of the outer tag are not modelled, and neither is `getCompound`/`getLongArray` meeting a tag of the wrong type.
- `FibLib.Globals.Get`: only the unreachable instance is modelled as the fallback case (a null world). A `NullPointerException` raised inside the fib, or by a fib registered as null, also makes the source return `state`; fibs here are total functions, so those two paths are not modelled.
- `FibLib.Globals.Get`: its frame names the whole world object. Its contract states that the only world fields it changes are the instance slot and `updates`.
