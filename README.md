# Adventure Land bot core, modelled in Dafny

This project models the decision core of an Adventure Land bot character.
Adventure Land is an MMORPG that players script in JavaScript. The bot's
`Character` class runs several timer-driven loops:

- the main loop equips better gear;
- the attack loop strikes the best-ranked target;
- the scare loop uses the `scare` skill when monsters become dangerous;
- the move loop works out where to go and steps away from threats;
- the heal loop drinks potions.

The helpers in `functions.ts` scan the inventory and the bank, gate skills
on their cooldowns, list the entities attacking the character, and collect
monster spawn points from the map data.

Each loop tick is modelled as a method that takes a snapshot of the game
(`Game.World`) and returns the decision it makes (`Policies.HealAction`,
`Policies.AttackAction`, `Policies.ScareAction`, `Movement.Decision`,
`Evasion.Escape`, `CharacterBot.MoveAction`) together with the delay before
the next tick. Game calls such as `attack`, `move`, `equip` and `use_skill`
are returned as decisions and are not performed.

The state the class keeps between ticks lives in `CharacterBot.Character`:

- the target priority table and the main target;
- the movement queue and movement target;
- the hold flags;
- the party, NPC and player information received over code messages;
- the last objective message.

The methods that change that state name exactly what they modify.

Modules:

- `Wrappers`: `Option`.
- `Dict`: an insertion-ordered string-keyed dictionary. For the string keys it holds (character and NPC names), a JavaScript object iterates `for … in` in insertion order, and the movement rules depend on that order.
- `Game`: items, entities, the character, skills and the world snapshot.
- `Functions`: `functions.ts`.
- `Targeting`: the ranking and selection done by `getTargets`.
- `Movement`: the rule cascade of `getMovementTarget`.
- `Evasion`: `avoidAggroMonsters` and `avoidAttackingMonsters`.
- `Policies`: the heal, attack, scare and monster-hunt decisions, and the loop delays.
- `CharacterBot`: the `Character` class and its loop steps.

Where the code and the design description disagree, the model follows the
code:

- After an attack, the attack loop re-arms with `getCooldownMS("attack")` whether the attack succeeded or failed (`character.ts:178` and `:181`). There is no faster retry on failure. `Policies.AttackRearm` states this.
- The comment says `avoidAttackingMonsters` runs from the closest attacker. The selection starts at `minDistance = 0` and skips only attackers strictly nearer than the current pick, so it keeps the LAST attacker at the GREATEST distance. `Evasion.ThreatPickIsLastFarthest` proves that this is what the code selects.
- When the main target has no entry in the priority table and none is visible, `getMovementTarget` dereferences the missing entry (`character.ts:659`) and throws. The model returns `Movement.MainTargetMissing`, after the movement target has already been set to the main target as at line 651. `CharacterBot.Character.MoveStep` then behaves like the move loop's `catch`: no actions and a 250 ms delay.

## Model

| member | source | states |
|---|---|---|
| Functions.ScanSound | source/functions.ts:22-61 | every entry an inventory scan returns is an occupied slot in range whose item passes the filter, and carries that slot's index and item |
| Functions.ScanAscending | source/functions.ts:22-61 | the entries of a scan come out in strictly ascending slot order |
| Functions.ScanComplete | source/functions.ts:22-61 | every occupied slot whose item passes the filter appears in the scan |
| Functions.ScanExact | source/functions.ts:22-61 | a scan returns exactly the matching slots, in slot order (soundness, completeness and order together) |
| Functions.Collect | source/functions.ts:22-61 | the shared loop over the 42 inventory slots collects the scan of the inventory under the given filter |
| Functions.GetInventory | source/functions.ts:22-29 | returns every occupied inventory slot with its index, in slot order and nothing else |
| Functions.FindItem | source/functions.ts:31-38 | returns nothing exactly when no slot holds an item of that name; otherwise returns the lowest-indexed such slot, and no earlier slot holds that name |
| Functions.FindItems | source/functions.ts:40-49 | returns exactly the slots holding an item of that name, in slot order |
| Functions.FindItemsWithLevel | source/functions.ts:51-61 | returns exactly the slots holding an item of that name at that level, in slot order |
| Functions.WithLevelFiltersFindItems | source/functions.ts:40-61 | the by-level search is the by-name search filtered to the requested level |
| Functions.GetEmptySlots | source/functions.ts:132-138 | returns, in ascending order, the indices of exactly the empty slots of the store |
| Functions.EmptyInPackExact | source/functions.ts:140-154 | a (pack, index) pair is listed for one bank pack exactly when the index is below 42 and that slot is empty |
| Functions.EmptyBankSlotsSound | source/functions.ts:140-154 | every listed bank slot is in a pack other than `gold`, has an index below 42, and is empty in that pack |
| Functions.EmptyBankSlotsComplete | source/functions.ts:140-154 | every empty slot below 42 of every non-`gold` pack is listed |
| Functions.GetEmptyBankSlots | source/functions.ts:140-154 | returns nothing exactly when the character is not on the `bank` map, otherwise the empty bank slots |
| Functions.CooldownMS | source/functions.ts:100-107 | the wait is never below the ping; with no timestamp it is the ping, otherwise the larger of the ping and the time left until the timestamp |
| Functions.IsAvailable | source/functions.ts:156-170 | a skill is unavailable when the character's level is below the skill's level, the mana is short or no cooldown table is known; otherwise it is available with no timestamp, multishot skills reuse the `attack` timestamp, and other skills are available once their own timestamp has passed |
| Functions.AvailabilityPersists | source/functions.ts:156-170 | once available, a skill stays available as time passes and nothing else changes |
| Functions.WaitingCooldownSuffices | source/functions.ts:100-170 | after waiting the time `getCooldownMS` reports, a skill whose level and mana checks pass, with the cooldown table (`next_skill`) present, is available; this excludes `3shot` and `5shot`, whose availability follows the `attack` timestamp |
| Functions.AttackingExact | source/functions.ts:173-184 | the attackers are exactly the entities targeting the character's id, with players left out unless the map is PvP |
| Functions.AttackersByKind | source/functions.ts:173-184 | with the `isPlayer` classification: outside PvP no player is among the attackers, every monster or NPC targeting the character is, and with PvP on every entity targeting it is |
| Functions.GetAttackingEntities | source/functions.ts:173-184 | the loop returns exactly the entities targeting the character, with players left out outside PvP |
| Functions.BoundarySpawnsAreMidpoints | source/functions.ts:204-222 | one spawn point per listed boundary, each the midpoint of that boundary on the map it names |
| Functions.AreaSpawnCount | source/functions.ts:204-222 | an area of another monster type gives no spawn point; a matching area gives one point for a single `boundary`, otherwise one per entry of `boundaries` |
| Functions.AreasSpawnsFrom | source/functions.ts:204-222 | a point is a spawn of one map exactly when it is the midpoint of a boundary of an area of that monster type on that map |
| Functions.SpawnsExact | source/functions.ts:204-222 | a point is a spawn exactly when some map that is not an instance has an area of that monster type that yields it |
| Functions.GetMonsterSpawns | source/functions.ts:204-222 | the nested loops over maps, areas and boundaries compute the spawn list in map and area order, skipping instance maps |
| Functions.MapSpawnPoints | source/functions.ts:209-218 | the loop over one map's areas computes that map's spawn list |
| Functions.BoundaryMidpoints | source/functions.ts:213-216 | the loop over one area's boundaries computes their midpoints in order |
| Dict.Put | source/character.ts:488-494 | assigning a key stores its value, keeps every other key's value, and appends the key to the iteration order only when it is new |
| Dict.GetPresent | source/character.ts:488-494 | a key has a value exactly when it is among the keys |
| Targeting.Enqueue | source/character.ts:681-710 | inserting into the priority queue keeps every element and adds exactly the new one |
| Targeting.EnqueueSorted | source/character.ts:681-710 | inserting into a queue ordered by descending priority keeps it ordered |
| Targeting.Rank | source/character.ts:681-710 | the queue holds exactly the scored candidates (as a multiset) |
| Targeting.RankSorted | source/character.ts:681-720 | the queue is dequeued in order of descending priority |
| Targeting.RankMembers | source/character.ts:681-720 | an element is in the queue exactly when it is a candidate |
| Targeting.EntitiesOf | source/character.ts:713-720 | dequeuing keeps the entities in queue order, one per entry |
| Targeting.CandidatesSound | source/character.ts:681-710 | every enqueued candidate is a present entity that passes the filters, scored by the priority formula |
| Targeting.CandidatesComplete | source/character.ts:681-710 | every present entity that passes the filters is enqueued with its score |
| Targeting.CandidatesEmpty | source/character.ts:681-712 | the queue is empty exactly when no entity passes the filters |
| Targeting.TakeIsTop | source/character.ts:713-720 | a candidate left out of the first n dequeued scores no higher than any of them |
| Targeting.SelectSound | source/character.ts:667-729 | at most n targets, each present and passing the filters |
| Targeting.SelectFilters | source/character.ts:684-686 | a returned entity has a priority-table entry or targets the character, and with PvP off no character-type entity is returned |
| Targeting.SelectOrdered | source/character.ts:667-729 | the returned targets are in order of descending priority |
| Targeting.SelectEmpty | source/character.ts:667-729 | asking for at least one target returns none exactly when no entity passes the filters |
| Targeting.SelectTop | source/character.ts:667-729 | a passing entity that is not returned scores no higher than any returned target |
| Targeting.AttackerOutranks | source/character.ts:684-705 | of two monsters of one type, the one attacking the character outranks one that is not, provided it is less than 1000 further away and is not a low-HP target a party member already claimed; the other is then never the chosen focus |
| Movement.PartyHuntsInTable | source/character.ts:573-579 | every party hunt target collected has an entry in the priority table |
| Movement.HuntTargetsInTable | source/character.ts:573-579 | every monster-hunt target, ours or a party member's, has a table entry |
| Movement.FirstEventInTable | source/character.ts:553-565 | the event chosen is an active event with a table entry; none is chosen exactly when no active event has one |
| Movement.FirstHuntSeenSound | source/character.ts:580-587 | a hunt target picked on sight is a hunt target and visible; when none is picked, no visible entity is a hunt target |
| Movement.FirstSharedSpawnSound | source/character.ts:617-626 | a shared spawn picked is a Kane spawn with a table entry at the point of one of Angel's spawns, and no earlier Kane spawn qualifies; none is picked exactly when no Kane spawn qualifies |
| Movement.GoldenBatFirst | source/character.ts:524-532 | a visible golden bat wins over every other rule, with no position and movement target `goldenbat` |
| Movement.FullInventoryBeforeQuests | source/character.ts:534-550 | with no bat and no tree buff to fetch, a full inventory sends the character to the drop-off point at main (60, -325), leaving the movement target unchanged |
| Movement.EventBeforeQuests | source/character.ts:552-565 | the first active event in the table wins over every hunt rule; it sets the movement target, with no position if one is visible and the event's position otherwise |
| Movement.HuntSeenBeforeNewHunt | source/character.ts:567-592 | a visible hunt target is chosen (and becomes the movement target) before a new hunt is fetched from the hunter |
| Movement.RetargetSources | source/character.ts:522-665 | any movement target the cascade sets is the golden bat, a table monster, the main target, or the monster at Kane's or Angel's first nearby spawn |
| Movement.GetMovementTarget | source/character.ts:522-665 | the rule cascade in source order; it fails only when the main target has no table entry and none is visible, with the movement target then already set to the main target; only the Christmas-tree, full-inventory, finish-hunt and new-hunt rules leave the movement target unchanged |
| Evasion.AggroPickIsFirstMax | source/character.ts:341-353 | the aggro threat is the first aggressive monster with the largest positive margin `max(60, 1.5 * speed) - distance`; the move distance is that margin |
| Evasion.ChooseAggroThreat | source/character.ts:339-353 | the selection loop returns the aggro pick and its margin |
| Evasion.AggroEscape | source/character.ts:338-368 | no escape exactly when nothing is picked; otherwise it flees an aggressive candidate by its positive margin, which no candidate exceeds, straight away (offset 0), moving only if that point is reachable |
| Evasion.AvoidAggroMonsters | source/character.ts:338-368 | the method returns the aggro escape: nothing when nothing is picked, otherwise a flight from the picked monster by its margin, straight away, moving only if `can_move_to` allows |
| Evasion.TargetingMeExact | source/character.ts:372-378 | the attackers collected are exactly the entities targeting the character's name |
| Evasion.ThreatPickIsLastFarthest | source/character.ts:386-399 | the attacker kited is the last one at the greatest distance among those that can be outrun, are close enough, are not one-shot, and do not outrange the character; none is picked only when none of them qualifies |
| Evasion.ChooseAttackThreat | source/character.ts:386-399 | the selection loop returns the threat pick and its distance |
| Evasion.CollectTargetingMe | source/character.ts:372-378 | the collection loop returns exactly the attackers of the character, in order |
| Evasion.SweepIndex | source/character.ts:412-421 | every angle offset from -179 to 180 is reached by the sweep, at a step below 360 |
| Evasion.SweepCoversCircle | source/character.ts:412-421 | the sweep 0, 1, -1, 2, -2, … visits 360 distinct offsets covering -179..180, ends at 180, and tries the offsets in order of non-decreasing size |
| Evasion.FirstFree | source/character.ts:412-421 | the sweep stops at a step between where it starts and 359 |
| Evasion.FirstFreeIsFirst | source/character.ts:412-421 | every direction before the stopping step is blocked, and the stopping direction is reachable unless it is the last (180 degrees) |
| Evasion.EscapeSweep | source/character.ts:412-426 | the loop stops at the first reachable offset of 0, 1, -1, …, 180, or after trying all 360; every offset before it was blocked, and the move happens only if the final offset is reachable |
| Evasion.AttackEscapeSound | source/character.ts:370-429 | the attack escape (`Evasion.AttackEscape`) is none exactly when no attacker (with the current target appended) is picked; otherwise it flees the pick by `range + speed - distance / 2`, at the first reachable offset of the sweep, with all 360 offsets blocked when it cannot move |
| Evasion.SweepStopsAtFirstFree | source/character.ts:412-426 | every direction before where the sweep stops is blocked, the stopping direction is reachable unless it is the last, and when it is not reachable no direction is |
| Evasion.AvoidAttackingMonsters | source/character.ts:370-429 | the collection, selection and sweep loops together compute the attack escape |
| Evasion.KiteAway | source/character.ts:386-429 | the selection and sweep loops compute the attack escape over the given attackers |
| Policies.LastPotIsLast | source/character.ts:292-314 | the potion found is the last potion of its kind in the inventory; none is found only when the inventory holds none |
| Policies.FindPotions | source/character.ts:292-314 | the backwards scan finds the last HP potion and the last MP potion |
| Policies.Ratio | source/character.ts:316-317 | the ratio is 1 exactly when the value equals its maximum, and ratio times maximum is the value |
| Policies.HealChoice | source/character.ts:316-329 | drinks HP when HP is not full, its ratio is at most the MP ratio and the potion's threshold is met; otherwise drinks MP when MP is not full and its threshold is met; otherwise idles |
| Policies.LowHpIsHealedFirst | source/character.ts:316-329 | worked cases: HP 600 below max with MP nearly full drinks HP, with no potion or an `hpot1`; HP 300 below max with an `hpot1` is not low enough, nor is MP 100 below max with an `mpot0`, so it idles |
| Policies.HealStep | source/character.ts:280-336 | dead: respawn, re-arm on the larger of the town cooldown and the ping; HP use on cooldown: wait for it; otherwise the heal choice over the last potions, re-arming after at least 250 ms |
| Policies.AttackGate | source/character.ts:164-171 | strikes the first target only when it exists, the character is not stoned, has the mana, the attack is available, the target is in range and not held back; holds exactly when one of these fails |
| Policies.AttackRearm | source/character.ts:172-186 | holding re-arms after exactly the larger of 50 ms and the attack cooldown; after a strike, whether it succeeds or fails, after the attack cooldown read when it settles |
| Policies.AttackersAreAlwaysAnswered | source/character.ts:164-171 | a focus attacking the character, in range, with the attack ready and mana available, and the character not stoned, is always struck, even when attacks are held |
| Policies.WantToScare | source/character.ts:192-201 | the loop decides to scare exactly when some attacker could kill in two hits, there are three or more attackers, or an attacker has no table entry |
| Policies.ScareByCount | source/character.ts:192-201 | three attackers always make the character want to scare; no attackers never do |
| Policies.ScareStep | source/character.ts:190-226 | without the scare available, 50 mana and a reason to scare, nothing happens; otherwise, with no orb equipped (a TypeError the loop catches) nothing is done, and it scares with a `jacko` equipped, or equips the first `jacko` in the inventory and scares; it re-arms after the larger of the ping and the scare cooldown |
| Policies.CanMonsterHunt | source/character.ts:139-151 | merchants cannot hunt; anyone else can with no hunt, with a hunt whose target is in the table, or when a party member's hunt target is in the table |
| Policies.PartyHuntsFromPartyHuntWeCanDo | source/character.ts:144-148 | when the movement rules collect some party hunt target, `canMonsterHunt`'s party check passes too |
| Policies.HuntTargetsImplyCanHunt | source/character.ts:139-151 | whenever the movement rules have hunt targets, a non-merchant character can monster-hunt |
| Policies.MainLoopDelay | source/character.ts:36 | the main loop re-arms after the larger of 250 ms and the ping |
| CharacterBot.Truncate | source/character.ts:236 | the message shown is the whole message when it fits in 12 characters, and otherwise exactly its first 12 characters |
| CharacterBot.ClimbFindsFirstBest | source/character.ts:505-516 | when every same-named item has a level, the better item found has the highest level among them, strictly above the equipped one, and is the first one at that level; nothing is found when none beats the equipped item |
| CharacterBot.UnleveledEntryReplaces | source/character.ts:511-512 | as written, an inventory item of the equipped name with no level is taken as better than a levelled equipped item, because the comparison with undefined is false |
| CharacterBot.ObjectiveActions | source/character.ts:233-245 | no calls without an objective; a changed message is shown (truncated) and followed by a stop, an unchanged one issues no stop; the calls end with a safe move exactly when the objective has a position |
| CharacterBot.Character.constructor | source/character.ts:12-22 | a new character has the given table and main target, an empty movement queue, both hold flags off, no movement target and no party, NPC or player information |
| CharacterBot.Character.ClaimedTargets | source/character.ts:670-679 | collects the targets of the visible party members |
| CharacterBot.Character.ScoreEntity | source/character.ts:689-705 | computes the priority formula for one entity |
| CharacterBot.Character.RankTargets | source/character.ts:681-711 | fills the priority queue with exactly the ranked candidates |
| CharacterBot.Character.GetTargets | source/character.ts:667-729 | at most n present targets that pass the filters, in descending priority, none exactly when nothing passes; focuses on the first |
| CharacterBot.Character.ParseCm | source/character.ts:482-496 | messages from outside the party change nothing; info, NPC and player messages update exactly that key of the matching dictionary; no other field changes |
| CharacterBot.Character.FindBetter | source/character.ts:507-516 | the inner loop finds the item the level climb selects |
| CharacterBot.Character.EquipBetterItems | source/character.ts:501-520 | equips, slot by slot in order, the better item found for each filled slot |
| CharacterBot.Character.MainStep | source/character.ts:25-37 | merchants equip nothing; others equip the better items; re-arms after the larger of 250 ms and the ping |
| CharacterBot.Character.GetMovementTarget | source/character.ts:522-665 | the decision is the rule cascade over the world; the movement target is updated only when the chosen rule sets it |
| CharacterBot.Character.ShowObjective | source/character.ts:233-245 | issues the objective's calls against the last message shown, and remembers the new message |
| CharacterBot.Character.HoldStep | source/character.ts:248-255 | when holding or smart-moving, the character stops and clears its movement queue exactly when the focus is a stop-on-sight monster it is moving to and in range |
| CharacterBot.Character.MoveStep | source/character.ts:230-278 | one move tick: the cascade decision and the movement target it sets; when it fails, no calls and a 250 ms re-arm; otherwise the objective's calls followed by the focus, stop-on-sight or default calls, the message remembered, the queue cleared exactly when holding or smart-moving with a stop-on-sight focus, and a 250 ms or max(250, ping) re-arm |
| CharacterBot.Character.ReactStep | source/character.ts:247-273 | focuses the best target, then stops and clears the queue exactly on sight of a stop-on-sight focus when holding or smart-moving, and otherwise makes the default movements; re-arms after 250 ms or max(250, ping) |
| CharacterBot.Character.AttackStep | source/character.ts:162-171 | the attack gate over the top-ranked focus; the focus switches to the first target on every tick that has one, whatever the gate decides; anything struck is that focus, a present entity that passes the filters |
| CharacterBot.DefaultMoves | source/character.ts:261-270 | rangers, mages and priests first make the aggro escape; everyone makes the attack escape over the attackers and the current target; rangers, mages, warriors and priests then approach a monster; nothing else |
| CharacterBot.Dequeue | source/character.ts:713-715 | takes the first n entities of the queue, in order |

## Left out

- Timers (`setTimeout`), promises, `try`/`catch` and the class's `run` wiring are not modelled. Each loop tick is a method that returns its re-arm delay, and the thrown TypeError at `character.ts:659` is the `MainTargetMissing` decision.
- Game and socket calls are returned as decisions and never performed: `attack`, `use_skill`, `equip`, `respawn`, `move`, `stop`, `set_message` and `change_target`. Also left out: `loot`, `sendInfoLoop`, `getNewYearTreeBuff`, `getMonsterhuntQuest` and `sendMassCM`, which are network or game I/O.
- Trigonometry and Euclidean distance are not computed. Each entity carries its distance to the character, and the escape position is left to a given `canMove` predicate over the threat, the distance and the angle offset.
- Kiting skips an attacker whose HP is below the damage estimate (`character.ts:394`). That check is a given `oneShot` predicate, because `damage_multiplier` is floating-point game data.
- The `Pathfinder` class, `saferMove` and `moveToMonster` are left out; the model only records the decision to call them. The pathfinder's `movementTarget` is kept as a field of the character.
- `getNearbyMonsterSpawns`, `getRandomMonsterSpawnPosition`, `get_targeted_monster` and the Christmas-tree and monster-hunter positions are inputs of the tick (`Surroundings`). They are not computed.
- Also not part of this model, because they are unused by the core loops or are pure game-data lookups: `sleep`, `buyIfNone`, `areWalkingTowards`, `getExchangableItems`, `getInRangeMonsters`, `getClosestMonsterSpawn`, `calculateDamageRange`, `estimatedTimeToKill`.
- Policies.HealChoice: requires positive maximum HP and MP, because the JavaScript division by a zero maximum, which gives NaN or Infinity, is not modelled.
- Policies.HealStep: requires positive maximum HP and MP, for the same reason as `HealChoice`.
- CharacterBot.ClimbFindsFirstBest: states the highest-level property only when every same-named item has a level. With an unlevelled item, JavaScript's comparison with `undefined` lets that item through; `CharacterBot.UnleveledEntryReplaces` shows this.
- Levels, HP, MP, speeds, ranges, ping and cooldown times are integers, and distances and ratios are reals. The floating-point rounding of the JavaScript numbers is not modelled.
- On instance maps `getNearbyMonsterSpawns` returns `undefined`, so the luck rule (`character.ts:617`) throws a TypeError that the move loop's `catch` turns into a 250 ms retry. The spawn lists are plain sequences here, which cannot be missing, so this failure is not part of this model.
- `canSeePlayer` is not an input: `Movement.CanSee` computes it from the visible entities.
- CharacterBot.Truncate: counts characters, while JavaScript's `slice(0, 12)` counts UTF-16 code units; the two differ only for characters outside the Basic Multilingual Plane, which the objective messages (monster and rule names) do not contain.
- The external `prioqueue` library is modelled as a stable max-queue: an element goes after every element whose score is at least its own. The library's tie order among equal priorities is not part of this model.
