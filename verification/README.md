# RSCGo server core in Dafny

A model of the core of RSCGo, a RuneScape Classic game server, with proofs
about it. It covers:

- **Mobs** (pkg/server/world/mob.go):
  - the dynamically typed attribute map every mob carries, with its typed getters and the bitmask operations;
  - the mob-state bitmask kept in that map (`AddState`, `RemoveState`);
  - the synchronisation flags and coordinate setters;
  - one tick of walking along a path (`TraversePath`), with its edge-collision checks;
  - fight bookkeeping (`ResetFighting`);
  - the 18-slot skill table and the combat-level formula.
- **The region grid** (pkg/entity/region.go): 48x48-tile regions in a lazily filled array, their membership lists with swap-with-last removal, and the four regions around a tile.
- **The client tick** (pkg/server/client.go):
  - the view update `UpdatePositions`, which works out the players and objects entering and leaving a player's view and queues the position, appearance and object packets;
  - the flag reset;
  - the login response with the starting skills.
- **The session seed** (`SeedISAAC`, pkg/server/rsa.go): the check of a client's four seed words, and their expansion to the 256 words that seed the two ISAAC streams (the encoding stream's words raised by 50).
- **The player registry** (pkg/server/players/playermap.go): the maps by username hash and by index, the lowest-free-index search, and the iteration over connected players.
- **The appearance handler** (pkg/server/packethandlers/appearance.go): whitelist validation, the corrections made for female characters, and installing the new look.
- **Scene interactions** (pkg/server/packethandlers/scene_interactions.go):
  - the door maps built at start-up, which pair up door ids;
  - the handler tables;
  - the altar, ladder, door and quest-hut handlers;
  - the object and boundary dispatchers.

Objects the Go code updates in place are modelled as classes:

- `AttributeList`, `Mob`, `SkillTable`, `Player`, `Region`, `Grid`, `Client` and `PlayerMap`;
- their lists and maps are `seq` and `map` fields, and fixed-size tables are arrays.

The handlers are methods on those classes. Each method's contract gives its result or new state, in terms of specification functions where the computation needs one, and the lemmas state the properties of those functions.

Several collaborators are declared outside the modelled files. They are passed in as function-valued parameters:

- the collision test, the waypoint helpers and the direction helper;
- the packet builders;
- the client registry;
- `world.GetObject`, `WithinRange`, `Above` and `Below`;
- object definitions.

The Go integer operations follow Go's semantics:

- division truncates toward zero (`Arith.Quot`);
- the state bitmask is a 64-bit word;
- byte increments wrap at 256;
- the ISAAC seed words wrap at 2^32.

## Model

| member | source | states |
|---|---|---|
| Arith.Quot | pkg/entity/region.go:99-100 | Go's truncating `/` agrees with floor division when the dividend is nonnegative and the divisor positive |
| Arith.Rem | pkg/entity/region.go:101-103 | Go's `%` takes the sign of the dividend, and `Quot(a, d) * d + Rem(a, d) == a` |
| World.AttributeList.SetVar | pkg/server/world/mob.go:558-562 | Only the named key changes; an int or bool stored there is what `VarInt`/`VarBool` then return, whatever the default |
| World.AttributeList.UnsetVar | pkg/server/world/mob.go:565-569 | Only the named key is removed; every typed getter then returns its default (the zero argument, nil) |
| World.AttributeList.VarInt | pkg/server/world/mob.go:572-580 | The stored int when the key holds an int; the caller's default when the key is missing or holds another type |
| World.AttributeList.VarBool | pkg/server/world/mob.go:659-667 | The stored bool, or the default when the key is missing or holds another type |
| World.AttributeList.VarPath | pkg/server/world/mob.go:681-689 | Some path exactly when the key holds a path, and then that path; nil otherwise |
| World.AttributeList.VarMob | pkg/server/world/mob.go:615-623 | Non-nil exactly when the key holds a mobile entity, and then that entity |
| World.AttributeList.VarTime | pkg/server/world/mob.go:670-678 | The stored instant, or the zero time when the key is missing or holds another type |
| World.AttributeList.MaskInt | pkg/server/world/mob.go:583-591 | The key ends up holding the old int (or `MSIdle` when the key is missing or not an int) with the mask ored in; a non-empty mask then tests as set |
| World.AttributeList.UnmaskInt | pkg/server/world/mob.go:594-602 | A stored int becomes `val & 0xFFFFFFFF - mask`, and a missing or non-int entry becomes `MSIdle`; no other key changes |
| World.AttributeList.CheckMask | pkg/server/world/mob.go:605-612 | As written, it answers false for every name, mask and attribute map |
| World.AttributeList.MaskSet | pkg/server/world/mob.go:604-612 | The documented test: true only when the key holds an int, and then exactly when that int shares a bit with the mask |
| World.CheckMaskMissesHeldBit | pkg/server/world/mob.go:605-612 | A mob whose state holds the chatting bit: `CheckMask` says no, while the documented test says yes |
| World.MaskSetIsHasState | pkg/server/world/mob.go:421-427 | For a single-bit mask, the documented mask test on "state" agrees with `HasState` |
| World.OrHolds | pkg/server/world/mob.go:429-435 | After oring a mask in, all its bits are held; oring in a mask already held changes nothing; a non-empty mask leaves the state non-idle |
| World.HoldsNothing | pkg/server/world/mob.go:421-427 | The idle state holds only the empty mask |
| World.UnmaskClears | pkg/server/world/mob.go:437-443 | Subtracting a held mask below bit 32 borrows nothing: it equals clearing the mask's bits in the low 32 bits |
| World.UnmaskDrops | pkg/server/world/mob.go:437-443 | After the subtraction, a held non-empty mask below bit 32 is no longer held |
| World.UnmaskIsClear | pkg/server/world/mob.go:437-443 | On a state below bit 32, the subtraction is exactly bit-clearing |
| World.Advanced | pkg/server/world/mob.go:205-207 | The waypoints are kept; the cursor moves on by one exactly when the mob stands on the next waypoint |
| World.NextTile | pkg/server/world/mob.go:214-267 | A step found moves each axis by at most one tile toward the waypoint, and never away; it stays put only at the waypoint; any tile entered is not blocked on the edge it is entered through |
| World.StraightSteps | pkg/server/world/mob.go:214-267 | Walking along one axis steps exactly when neither the current tile's wall nor the next tile's facing wall blocks, and drops the path otherwise; at the waypoint itself the step is to stay |
| World.Mob.State | pkg/server/world/mob.go:421-423 | The int stored under "state", or `MSIdle` (0) when the key is missing or holds another type |
| World.Mob.HasState | pkg/server/world/mob.go:425-427 | `HasState(MSIdle)` always holds, and a mask is held exactly when oring it into the state leaves the state unchanged (the test `AddState` uses to skip a held state) |
| World.Mob.Busy | pkg/server/world/mob.go:91-93 | A mob is idle exactly when the empty mask is the only one it holds, i.e. busy iff the state is not `MSIdle` |
| World.Mob.AddState | pkg/server/world/mob.go:429-435 | A state already held leaves the map unchanged; otherwise the state becomes old or mask. Afterwards the mask is held, and a non-idle mask makes the mob busy |
| World.Mob.RemoveState | pkg/server/world/mob.go:437-443 | A state not held leaves the map unchanged; otherwise the state becomes `old & 0xFFFFFFFF - state`, after which a non-empty mask below bit 32 is no longer held |
| World.Mob.Change | pkg/server/world/mob.go:143-145 | Only the "changed" flag is raised |
| World.Mob.Direction | pkg/server/world/mob.go:132-134 | The int stored under "direction", or `North` when the key is missing or holds another type |
| World.Mob.SetDirection | pkg/server/world/mob.go:137-140 | "changed" is raised, the direction is stored, and `Direction` then reads it back |
| World.Mob.Move | pkg/server/world/mob.go:158-160 | Only the "moved" flag is raised |
| World.Mob.Remove | pkg/server/world/mob.go:148-150 | Only the "remove" flag is raised |
| World.Mob.ResetMoved | pkg/server/world/mob.go:162-164 | Only the "moved" key is dropped |
| World.Mob.Path | pkg/server/world/mob.go:189-191 | A path is returned exactly when one is stored under "path", and it is the stored one; otherwise none (nil) |
| World.Mob.FinishedPath | pkg/server/world/mob.go:368-374 | The walk is finished exactly when there is no path, the cursor is at or past the last waypoint, or the next tile from the mob's position is not valid; so a walk that is not finished has a path with a waypoint left and a valid next tile |
| World.Mob.SetPath | pkg/server/world/mob.go:179-181 | The path is stored and `Path` then returns it |
| World.Mob.ResetPath | pkg/server/world/mob.go:194-197 | "moved" and the path are dropped, and `Path` then returns nil |
| World.Mob.SetCoords | pkg/server/world/mob.go:392-401 | The coordinates are set. A walk raises "changed" and "moved" and faces the direction from the old tile to the new one; a teleport raises only "remove" |
| World.Mob.Teleport | pkg/server/world/mob.go:413-415 | The coordinates are set, the index is kept, and the attribute map changes only by raising "remove" |
| World.Mob.TraversePath | pkg/server/world/mob.go:200-270 | With no path nothing changes. With a finished path, or with no `NextTile` toward the waypoint, the mob stays and the attribute map loses exactly "path" and "moved". Otherwise the mob moves to the `NextTile`, and the attribute map is the old one with the advanced path stored and "changed", the new direction and "moved" set |
| World.Mob.IsFighting | pkg/server/world/mob.go:95-97 | Fighting exactly when the fighting state is held and a fight target is stored; a fighting mob is busy |
| World.Mob.FightTarget | pkg/server/world/mob.go:99-101 | A target is returned exactly when a mobile entity is stored under "fightTarget", and it is the stored one; otherwise nil |
| World.Mob.UpdateLastFight | pkg/server/world/mob.go:127-129 | "lastFight" holds the given instant and `VarTime` reads it back |
| World.LeftFight | pkg/server/world/mob.go:446-462 | The attribute map after leaving a fight: no fight target or round, "changed" raised, facing north, the fighting bit cleared, the fight time recorded, every other key as before |
| World.Mob.LeaveFight | pkg/server/world/mob.go:446-462 | The attribute map becomes exactly `LeftFight` of the old map; afterwards the mob is not fighting |
| World.Mob.ResetFighting | pkg/server/world/mob.go:446-462 | Afterwards neither the mob nor its former fight target is fighting. A target that was fighting has exactly the `LeftFight` attribute map; one that was not keeps its map. A mob that was fighting (with a target that does not share its attributes) has exactly the `LeftFight` map; one that was not keeps its map |
| World.Mob.FightMode | pkg/server/world/mob.go:465-467 | The int stored under "fight_mode", or 0 (all) when the key is missing or holds another type |
| World.Mob.StyleBonus | pkg/server/world/mob.go:912-920 | The bonus is 0, 1 or 3. It is 1 exactly in fight mode 0, and 3 exactly for the stat the mode trains (mode 2 attack, mode 1 strength, mode 3 defense) |
| World.QuotMonotone | pkg/server/world/mob.go:815-817 | Go's truncating division by a positive divisor does not decrease when the dividend grows, across the sign change too |
| World.TruncEighths | pkg/server/world/mob.go:815-817 | Converting the float quotient by 8 back to an int is Go's truncating integer division by 8 |
| World.SkillTable.Current | pkg/server/world/mob.go:738-742 | The current level stored in the indexed slot of the current-level array |
| World.SkillTable.Maximum | pkg/server/world/mob.go:793-797 | The level stored in the indexed slot of the maximum-level array |
| World.SkillTable.Experience | pkg/server/world/mob.go:800-804 | The experience stored in the indexed slot of the experience array |
| World.SkillTable.DecreaseCur | pkg/server/world/mob.go:744-748 | Only the indexed current level changes, lowered by the delta |
| World.SkillTable.IncreaseCur | pkg/server/world/mob.go:750-754 | Only the indexed current level changes, raised by the delta |
| World.SkillTable.SetCur | pkg/server/world/mob.go:756-760 | Only the indexed current level changes, to the value |
| World.SkillTable.DecreaseMax | pkg/server/world/mob.go:762-766 | Only the indexed maximum level changes, lowered by the delta |
| World.SkillTable.IncreaseMax | pkg/server/world/mob.go:768-772 | Only the indexed maximum level changes, raised by the delta |
| World.SkillTable.SetMax | pkg/server/world/mob.go:774-778 | Only the indexed maximum level changes, to the value |
| World.SkillTable.SetExp | pkg/server/world/mob.go:780-784 | Only the indexed experience changes, to the value |
| World.SkillTable.IncExp | pkg/server/world/mob.go:786-790 | Only the indexed experience changes, raised by the value |
| World.SkillTable.CombatLevel | pkg/server/world/mob.go:807-818 | The combat level of the table's maximum levels, by the integer formula |
| World.Float32CombatLevel | pkg/server/world/mob.go:807-818 | The float branches of the source (ranged build below 1.5 times ranged, melee otherwise) truncate to the integer formula |
| World.CombatLevelExact | pkg/server/world/mob.go:810-817 | Either float branch, divided by 4 and truncated, equals an eighth of the integer total, truncated |
| World.CombatFormulaMonotone | pkg/server/world/mob.go:807-818 | The combat formula does not decrease when any of the aggressive, defensive, spiritual or ranged totals grows |
| World.CombatLevelMonotone | pkg/server/world/mob.go:807-818 | Raising any maximum level never lowers the combat level |
| Entity.FirstMatch | pkg/entity/region.go:43-44 | The position of the first entry with the index, where no earlier entry has it; the length when there is none |
| Entity.FirstMatchAt | pkg/entity/region.go:43-44 | The first hit of a left-to-right scan is the position `FirstMatch` reports |
| Entity.FirstMatchNone | pkg/entity/region.go:43-50 | An index found nowhere is reported as the length, which removes nothing |
| Entity.SwapRemove | pkg/entity/region.go:45-47 | The list is one shorter; the removed slot holds the former last element, and every other slot is unchanged |
| Entity.SwapRemoveMultiset | pkg/entity/region.go:45-47 | Swap-with-last removal drops exactly one copy of the removed element and keeps every other element |
| Entity.Region.AddPlayer | pkg/entity/region.go:36-38 | The player is appended, the earlier players keep their order, and the objects are untouched |
| Entity.Region.RemovePlayer | pkg/entity/region.go:41-51 | The first player with the same index is overwritten by the last player and the list shrinks by one; with no such player nothing changes; the objects are untouched |
| Entity.Region.AddObject | pkg/entity/region.go:54-56 | The object is appended, the earlier objects keep their order, and the players are untouched |
| Entity.Region.RemoveObject | pkg/entity/region.go:59-69 | The first object with the same index is overwritten by the last object and the list shrinks by one; with no such object nothing changes |
| Entity.WorldInGrid | pkg/entity/region.go:16-25 | Every coordinate inside the world bounds has its region cell inside the array |
| Entity.SurroundingCells | pkg/entity/region.go:98-125 | Four cells: the containing one, then the neighbouring column, the diagonal and the neighbouring row, on the side of the region's midpoint where the coordinate lies |
| Entity.SurroundingShape | pkg/entity/region.go:98-125 | Slot 0 is the containing cell, slot 1 the neighbour in its row, slot 3 the neighbour in its column, and slot 2 the corner between them. The neighbour is the lower one exactly when the remainder within the region is at most 24, and the higher one otherwise |
| Entity.AxisCovered | pkg/entity/region.go:99-122 | Along one axis, a coordinate within 23 tiles lies in the containing column or in the chosen neighbour |
| Entity.SurroundingCovers | pkg/entity/region.go:98-125 | For nonnegative coordinates, every tile within Chebyshev distance 23 lies in one of the four cells, so both view distances (15 and 20) are covered |
| Entity.Grid.RegionAt | pkg/entity/region.go:72-85 | An in-range cell's stored region is returned, or allocated and stored on first use; an out-of-range cell gets a fresh empty region that is not stored; no other cell changes |
| Entity.SurroundingDistinct | pkg/entity/region.go:98-125 | The four surrounding cells are pairwise different |
| Entity.Grid.GetRegion | pkg/entity/region.go:88-90 | The region of the cell holding the coordinate, as `getRegionFromIndex` serves it; for in-world coordinates it is the one stored for that cell |
| Entity.Grid.SurroundingRegions | pkg/entity/region.go:72-125 | Four regions, each served for the matching `SurroundingCells` slot. A slot whose cell already held a region gets that same region; a slot out of range or with an empty cell gets a fresh empty region. No other cell of the array changes |
| Server.LongestDelta | pkg/server/client.go:111 | The Chebyshev distance: nonnegative, at least each coordinate difference, and equal to one of them |
| Server.ResolveAppearances | pkg/server/client.go:135-141 | The appearance loop yields `Resolve` of the listed indexes |
| Server.ResolveMembers | pkg/server/client.go:135-141 | A player is resolved exactly when it is the player of a registered client whose index was listed |
| Server.EnteringPlayersMembers | pkg/server/client.go:109-121 | A player is queued as entering exactly when it was scanned, is not the observer, is within 15 tiles and was not known |
| Server.LeavingPlayersMembers | pkg/server/client.go:109-121 | A player is queued as leaving exactly when it was scanned, is not the observer, is beyond 15 tiles and was known |
| Server.EnteringObjectsMembers | pkg/server/client.go:122-132 | An object is queued as entering exactly when it was scanned, is within 20 tiles and was not known |
| Server.LeavingObjectsMembers | pkg/server/client.go:122-132 | An object is queued as leaving exactly when it was scanned, is beyond 20 tiles and was known |
| Server.PlayerDiff | pkg/server/client.go:109-121 | No player both enters and leaves; entering players were unknown, leaving players were known, and neither is the observer |
| Server.ObjectDiff | pkg/server/client.go:122-132 | No object both enters and leaves; entering objects were unknown and leaving objects were known |
| Server.Client.constructor | pkg/server/client.go:211-215 | A new client has an empty queue, is not killed, and has a two-word session seed of zeros |
| Server.Client.SeedISAAC | pkg/server/rsa.go:45-69 | A seed whose words 2 and 3 differ from the session seed is refused with no change. Otherwise session words 0 and 1 become the client's; the decoder is seeded with the 63-block expansion and the encoder with that expansion raised by 50 |
| Server.Client.ResetUpdateFlags | pkg/server/client.go:92-97 | Removing, moved and appearance-changed are cleared and has-self is set; connection and view lists are untouched |
| Server.Client.UpdatePositions | pkg/server/client.go:99-153 | The player's flags, the kill flag, the session seed and every grid cell outside the scanned regions are unchanged. At the death spot or disconnected, nothing is queued and no cell changes. Otherwise the four surrounding regions are scanned: each is the region its cell already held before the call, or a fresh empty one where the cell was empty or out of range. The appearance list is emptied, and the packets are queued in order, each only if built: positions (entering/leaving players), appearances (listed players, then entering players), objects (entering/leaving objects) |
| Server.Client.SendViewUpdates | pkg/server/client.go:108-152 | The packets `UpdatePositions` queues for a given list of scanned regions |
| Server.Client.SendViewPackets | pkg/server/client.go:143-152 | The position, appearance and object packets are appended in that order; a nil packet is skipped |
| Server.Client.ScanRegions | pkg/server/client.go:108-133 | The region loop builds exactly the entering and leaving lists of all the scanned players and objects |
| Server.Client.ScanRegion | pkg/server/client.go:109-132 | One region's players, then its objects, extend the four lists as the scan order prescribes |
| Server.Client.ScanPlayers | pkg/server/client.go:109-121 | The player loop extends the entering and leaving lists by exactly the scanned players that enter and leave |
| Server.Client.ScanObjects | pkg/server/client.go:122-132 | The object loop extends the entering and leaving lists by exactly the scanned objects that enter and leave |
| Server.Client.InitialiseSkills | pkg/server/client.go:186-196 | Every skill starts at level 1 with no experience, except Hits (slot 3), which starts at level 10 with 1154 experience |
| Server.Client.SendLoginResponse | pkg/server/client.go:176-208 | The response code is always queued, and the session seed and the view lists are kept. A non-zero code kills the client and changes nothing else: skills, flags, grid cells and regions are as before. Code 0 adds the player to its tile's region (the one the cell already held, else a fresh region holding only the player), leaves every other region and cell as it was, marks the player connected with a changed appearance, sets the starting skills and queues the login packets |
| Server.Client.Admit | pkg/server/client.go:183-207 | The player is added to the region of its tile and to no other. That region is the one the cell already held, or, for an empty or out-of-range cell, a fresh region holding only the player; it is marked connected with a changed appearance, gets the starting skills, and the login packets follow the queued ones; the kill flag is kept |
| Server.StartLevel | pkg/server/client.go:187-192 | The starting level is 10 for slot 3 and 1 for every other slot |
| Server.StartExperience | pkg/server/client.go:187-192 | The starting experience is 1154 for slot 3 and 0 for every other slot |
| Isaac.Block | pkg/server/rsa.go:55-57 | Each pass appends seed words 2 and 3, then words 0 and 1 |
| Isaac.ExpansionLayout | pkg/server/rsa.go:53-61 | After n passes the seed is still in front, the length has grown by 4n, and every later word is the matching word of the four-word block |
| Isaac.ExpandedWords | pkg/server/rsa.go:53-61 | A four-word seed expands to 256 words: the seed, then for every block 1 ≤ k < 64, words s2, s3, s0, s1 |
| Isaac.ExpandSeed | pkg/server/rsa.go:53-61 | The append loop (i = 4, 8, ..., 252; the odd branch is never taken) produces the 63-pass expansion, 252 words longer than the seed |
| Isaac.AddOffset | pkg/server/rsa.go:62-66 | The in-place loop yields `Shifted` of its input |
| Isaac.Shifted | pkg/server/rsa.go:62-66 | Same length; each of the first 256 words is raised by 50, wrapping at 2^32, and the rest are unchanged |
| Isaac.Unshifted | pkg/server/rsa.go:62-66 | The inverse adjustment: each of the first 256 words is lowered by 50, wrapping at 2^32 |
| Isaac.ShiftRoundTrip | pkg/server/rsa.go:62-66 | Raising then lowering, and lowering then raising, both give back the words, even across the wrap |
| Isaac.StreamsDiffer | pkg/server/rsa.go:62-66 | The encoder's and decoder's seeds differ in every one of the 256 seeded words |
| Players.LeastFreeMeans | pkg/server/players/playermap.go:76-85 | The index found is -1 exactly when every index below the limit is taken; otherwise it is free, below the limit, and every smaller index is taken |
| Players.PlayerMap.NextIndex | pkg/server/players/playermap.go:76-85 | The scan returns the least free index below the player limit, or -1 |
| Players.PlayerMap.Put | pkg/server/players/playermap.go:40-47 | The player gets the least free index (or -1) and is registered under its hash and that index, so both lookups find it; other entries are kept |
| Players.PlayerMap.Remove | pkg/server/players/playermap.go:50-55 | Exactly the entries under the player's hash and index are dropped |
| Players.PlayerMap.FromUserHash | pkg/server/players/playermap.go:18-23 | Found exactly when the hash is registered, and then the registered player; nil otherwise |
| Players.PlayerMap.ContainsHash | pkg/server/players/playermap.go:26-29 | True exactly when the hash is registered |
| Players.PlayerMap.FromIndex | pkg/server/players/playermap.go:32-37 | Found exactly when the index is registered, and then the registered player; nil otherwise |
| Players.PlayerMap.Size | pkg/server/players/playermap.go:69-73 | The number of hash entries |
| Players.PlayerMap.constructor | pkg/server/players/playermap.go:11-15 | Both maps start empty |
| Players.PlayerMap.Range | pkg/server/players/playermap.go:58-66 | The action is applied to the connected players of the index map, once per entry, in the order the map is visited |
| Players.Visited | pkg/server/players/playermap.go:58-66 | At most one player is acted on per visited key |
| Players.VisitedMeans | pkg/server/players/playermap.go:58-66 | A player is acted on exactly when it is connected and registered under a visited key |
| Players.VisitedCount | pkg/server/players/playermap.go:58-66 | When every key is visited once, the number of actions is the number of keys whose player is connected |
| Appearance.Sprite | pkg/server/packethandlers/appearance.go:41-43 | The sprite is the byte plus one, computed in a byte: 255 wraps to 0 |
| Appearance.InArray | pkg/server/packethandlers/appearance.go:25-32 | True exactly when the value occurs in the list |
| Appearance.Validate | pkg/server/packethandlers/appearance.go:51-55 | The request is accepted exactly when it is not `Rejected` |
| Appearance.RejectedMeans | pkg/server/packethandlers/appearance.go:51-55 | Refused exactly when a colour index is past its palette (10 hair, 15 top and leg, 5 skin), the head is not sprite 1, 4, 6, 7 or 8, the body is not 2 or 5, or the legs byte is not 2 |
| Appearance.CorrectedValid | pkg/server/packethandlers/appearance.go:57-66 | An accepted request ends with an offered head and body. A female one gets the female body and never the bearded head; a male one gets exactly the requested sprites |
| Appearance.Installed | pkg/server/packethandlers/appearance.go:67-84 | The new appearance keeps the old legs sprite and takes the corrected head and body, the sex and the four colours from the request |
| Appearance.Apply | pkg/server/packethandlers/appearance.go:57-84 | The appearance is replaced as `Installed` says. A worn head or body item is changed to the new sprite only where it showed the old sprite; the other worn items are untouched |
| Appearance.ChangeAppearance | pkg/server/packethandlers/appearance.go:35-86 | Without the changing-appearance state, or for a rejected request, nothing changes. Otherwise the look is applied and the attribute map changes only in "state", which loses the changing-appearance bit. The connection flag is kept |
| Scene.AddReverse | pkg/server/packethandlers/scene_interactions.go:28-31 | Every door entry gains its reverse entry, every added entry is the reverse of an original one, and the result pairs up its keys |
| Scene.PairedIsInvolution | pkg/server/packethandlers/scene_interactions.go:24-37 | A map holding an injective map plus only that map's reverse entries maps every key to a key that maps back |
| Scene.ActionTables.constructor | pkg/server/packethandlers/scene_interactions.go:21-142 | After start-up the object doors pair 59↔60, 57↔58 and 63↔64 and the boundary doors pair 2↔1, both pairing up their keys. The four handler tables hold exactly the altar, ladder, open and close handlers |
| Scene.Selected | pkg/server/packethandlers/scene_interactions.go:231-242 | The handler for the id wins, else the handler for the command; none exactly when neither is registered |
| Scene.QuestHutDestination | pkg/server/packethandlers/scene_interactions.go:116-122 | The door leads to (161, 465), or to (161, 464) exactly when the player stands at y ≥ 465 |
| Scene.Toggled | pkg/server/packethandlers/scene_interactions.go:81-88 | A door is replaced by its partner exactly when the argument is an object whose id has a partner |
| Scene.ToggleTwice | pkg/server/packethandlers/scene_interactions.go:75-104 | Under a door map that pairs up its keys, toggling a door and then toggling the result restores the original id |
| Scene.Reaction | pkg/server/packethandlers/scene_interactions.go:38-142 | Every handler called without arguments sends and replaces nothing |
| Scene.PrayerAfter | pkg/server/packethandlers/scene_interactions.go:38-50 | Prayer never drops. It ends at its old level or at its maximum, and it changes only by the altar handler called with an argument |
| Scene.TileAfter | pkg/server/packethandlers/scene_interactions.go:51-74 | The player moves only by a ladder handler called with an argument |
| Scene.NoArgumentsNoEffect | pkg/server/packethandlers/scene_interactions.go:39-42 | Called with no arguments, every handler leaves prayer, tile and the world unchanged |
| Scene.AltarRecharges | pkg/server/packethandlers/scene_interactions.go:44-49 | The altar raises prayer to its maximum when it is below, and otherwise leaves it |
| Scene.RechargePrayer | pkg/server/packethandlers/scene_interactions.go:38-50 | Below maximum, prayer is set to its maximum and the stat update and altar message are sent; otherwise nothing changes |
| Scene.Climb | pkg/server/packethandlers/scene_interactions.go:51-74 | With an argument and a different tile above (or below), the player is teleported there and the plane update is sent. Otherwise nothing changes. The player's index is kept |
| Scene.Toggle | pkg/server/packethandlers/scene_interactions.go:75-104 | The door handlers replace the door with its partner as `Toggled` says |
| Scene.OpenBoundaryDoor | pkg/server/packethandlers/scene_interactions.go:105-127 | The quest-hut door (id 109) sends the player through to `QuestHutDestination`. A boundary with a partner is then swapped with it. With no argument, or a non-object argument, nothing happens |
| Scene.Invoke | pkg/server/packethandlers/scene_interactions.go:38-142 | A handler's effects, prayer and tile are those `Reaction`, `PrayerAfter` and `TileAfter` give; the player's index is kept |
| Scene.Dispatch | pkg/server/packethandlers/scene_interactions.go:219-243 | Unless the player is idle, the object is still at its tile and the player is within one tile, nothing happens. Otherwise the selected handler runs on the object, and with no handler the default message is sent. The attribute map is unchanged unless the player moves, when only "remove" is raised; the player's index is kept |
| Scene.ObjectAction | pkg/server/packethandlers/scene_interactions.go:219-243 | As `Dispatch`, including its attribute-map and index statements, over the first object table and command, or the second table and command on a right click |
| Scene.BoundaryAction | pkg/server/packethandlers/scene_interactions.go:245-269 | As `Dispatch`, including its attribute-map and index statements, over the boundary tables and the boundary definition's first or second command |

## Findings

| source | as written | input that shows it | evidently intended | confidence | as-written member | corrected member |
|---|---|---|---|---|---|---|
| pkg/server/world/mob.go:605-612 | The branch taken when the type assertion fails tests the zero value; the other branch tests the literal 0. So `CheckMask` is false for every input | the attribute "state" holding the int 2 (chatting), mask 2 | true when the stored int shares a bit with the mask | high (not executed) | World.CheckMaskMissesHeldBit | World.AttributeList.MaskSet |

## Left out

- Concurrency is not modelled: locks, goroutines and channels, and with them `StartReader`, `StartWriter`, `StartNetworking` and `Destroy` (pkg/server/client.go:32-90, 156-174). The state is modelled as updated sequentially. `MaskInt`/`UnmaskInt` writing under a read lock is a race outside this model.
- The goroutine in `UpdateNPCPositions` (pkg/server/world/mob.go:878-899) and NPC wandering (clock and randomness) are not modelled.
- `MaxHit`, `Accuracy`, `Defense` and both `MeleeDamage` (pkg/server/world/mob.go:922-997) are not modelled: they use float32 and random numbers. `CombatLevel` is modelled over integers, where its float steps are exact.
- `DecryptRSA`, `ReadRSAKeyFile` and `GenerateSessionID` (pkg/server/rsa.go:21-43, 73-75) are not modelled: RSA, file I/O and randomness. The ISAAC generator is not part of this model; a stream is represented by the words it is seeded with.
- Server.Client.SeedISAAC: requires a stored session seed of at least four words. The code that fills the session seed is not part of this model, and `NewClient` allocates two words. Both the `uint64` session words and the `uint32` client words are modelled as 32-bit words.
- pkg/server/commands.go, pkg/server/packethandler.go and `BroadcastLogin` (pkg/server/players/playermap.go:88-97) are not modelled. They are messaging and logging glue over code outside this model.
- Packet decoding is not modelled. This covers the appearance packet and the `objectaction*`/`boundaryaction*` packets with their distanced-action queueing (pkg/server/packethandlers/scene_interactions.go:143-206). Requests are taken already decoded, and the range recheck is part of `Scene.Ready`.
- Logging is not modelled.
- The packet builders, `world.GetObject`, `WithinRange`, `Above`, `Below`, `ReplaceObject`, `IsTileBlocking`, `DirectionTo`, the waypoint helpers and the game-database command lists are parameters. A panic on an unknown definition id is not modelled.
- Player entry by door runs in a goroutine (`go p.EnterDoor`); it is modelled as an `EnteredDoor` effect.
- Appearance.ChangeAppearance: `player.UpdateAppearance()` (pkg/server/packethandlers/appearance.go:82) is declared outside the modelled files and is not modelled. So for an accepted request the contract says nothing about the appearance-changed flag. The duplicated leg-colour test is kept as written.
- Scene.Climb: `SetLocation` with one argument is modelled as a teleport, without the region move described next.
- World.Mob.TraversePath, World.Mob.Teleport: the player's re-registration with the region of its new tile (`UpdateRegion`, pkg/server/world/mob.go:345-354, reached from `SetLocation` and `SetCoords` at pkg/server/world/mob.go:381-384 and 403-406) is not modelled. It uses the world package's own region table, which is not part of this model; the view-update model keeps entity positions fixed. This also applies to `Scene.Climb`.
- World.Mob.SetPath: passing nil is not modelled. Go stores a nil path under "path", which later reads back as no path; the model drops the path through `ResetPath` instead.
- World.SkillTable.DecreaseCur and the other indexed setters, and the getters World.SkillTable.Current, World.SkillTable.Maximum and World.SkillTable.Experience, require an index below 18, and Server.Client.SeedISAAC requires a seed of at least four words. Go panics on an index out of range there, and such a panic is not modelled.
- Wall-clock time is an integer parameter (`UpdateLastFight`, `LeaveFight`, `ResetFighting`).
- `MaxX`/`MaxY` and the direction constant `North` are declared outside the modelled files; their values are taken as the RuneScape Classic map bounds and 0.
- Entity positions are fixed in the view-update model: nothing there moves a player or an object.
- Entity.SurroundingCovers: proved only for nonnegative coordinates, where Go's truncating division is floor division.
- Server.Client.UpdatePositions: the known-player and known-object lists are not replaced with the newly computed lists, because the code does not replace them.
- Go map iteration order is unspecified. It is a parameter listing every key once (`Players.PlayerMap.Range`, `Scene.AddReverse`). In `init`, Go may or may not visit entries added during the loop; re-visiting one would write the same pair again, so the result does not depend on it.
- `ContainsPlayer` and the other list membership tests compare references. They are modelled as object identity.
