# Eldar: the per-round decision logic of a Purge 2020 player

This project models the player `AIEldar.cc` of the EDA "The Purge" 2020 game.
Each round the player does four things:
- It rebuilds three integer grids from the host's view of the board: cell contents, enemy life or danger, and signed barricade resistance.
- It finds, for every money and weapon cell, the nearest citizen interested in it.
- It runs one best-first search per citizen of its own to pick a target, and falls back to building a barricade or escaping when there is none.
- It buffers the resulting `move`/`build` calls and sends them in priority order.

Module by module:
- `Encoding` holds the cell encoding, the directions, `my_weapon` and `is_stronger`.
- `Host` is the host's view of one round, a `World` value. The game engine is not part of this model.
- `Snapshot` states, cell by cell, what `build_board` computes: the content code, the barricade value, the bonus-table entry and the enemy/danger value.
- `Queues` holds the `Vertex` and `Instr` comparators, the top extraction of a priority queue, and the flush of the instruction buffer.
- `Contention` is `compute_closest`.
- `Decision` holds the per-cell rules: `strength_demolish`, `is_danger`, `no_brainer`, `add_movement_penalties`, `has_buildable_barricade`, `is_escape_route`, the profit scoring, the barricade threshold and the commit step.
- `Approach` is the search of `approach_target`.
- `Tasks` covers what the day and night tasks choose when the search gives no move.
- `Bot` holds the class `Eldar`. It has the three grids as `array2<int>` filled in place, the barricade counter, the two bonus maps with the parity flag that selects one of them, and the instruction buffer. It also holds the round driver `Play`.

## Model

| member | source | states |
|---|---|---|
| Encoding.MyWeapon | AIEldar.cc:182-187 | the weapon code lies between BUILDER and BAZOOKA; it is BUILDER exactly for no weapon, GUN exactly for a gun, BAZOOKA exactly for a bazooka |
| Encoding.MyWeaponInjective | AIEldar.cc:182-187 | two weapons with the same code are the same weapon |
| Encoding.EnemyCode | AIEldar.cc:319-323 | an enemy's code lies between ENEMY_BAZOOKA and ENEMY_BUILDER; it is ENEMY_BUILDER exactly for a builder; a warrior with a weapon gets the negated weapon code |
| Encoding.IsStronger | AIEldar.cc:358-363 | a higher tier wins and a lower tier loses; at equal tiers, strictly more remaining life wins |
| Encoding.IsStrongerAsymmetric | AIEldar.cc:358-363 | two citizens are never each stronger than the other |
| Encoding.IsStrongerTotal | AIEldar.cc:358-363 | of two citizens one is stronger, unless tier and life both tie |
| Snapshot.Classify | AIEldar.cc:300-335 | the precedence building, food, money, gun, bazooka, citizen, empty, one code at a time: WALL exactly on buildings, FOOD and MONEY exactly on those bonuses off buildings, GUN and BAZOOKA exactly on those weapons with no bonus, FRIENDLY_CITIZEN exactly on my citizen and an enemy code exactly on another player's citizen with nothing else there, EMPTY exactly on a bare cell; an enemy's code is EnemyCode of its type and weapon; HAMMER and BUILDER never appear |
| Snapshot.BarricadeValue | AIEldar.cc:337-342 | 0 without a barricade; otherwise plus or minus the resistance, non-negative for my barricade and non-positive for an enemy's |
| Snapshot.BonusEntry | AIEldar.cc:303-314 | exactly the money, gun and bazooka cells get an entry: kind 'M' for money, 'W' for a weapon, distance 0, not friendly |
| Snapshot.MergeDanger | AIEldar.cc:282-286 | a cell holding an enemy's life is never changed; otherwise the result is the smaller (more dangerous) of the old value and the enemy's code |
| Snapshot.MergeDangerIdempotent | AIEldar.cc:282-286 | merging the same enemy twice equals merging it once |
| Snapshot.MergeDangerCommutes | AIEldar.cc:282-286 | the order in which two enemies are merged into a cell does not matter |
| Snapshot.DangerStep | AIEldar.cc:319-332 | scanning cell c changes the enemy grid as build_board does: the enemy's life on c, update_danger on each neighbour, nothing elsewhere |
| Snapshot.EnemyGridMeaning | AIEldar.cc:292-333 | once built, a cell holding an enemy has its life; every other cell is 0 or the code of an adjacent enemy, never weaker than any adjacent enemy's code, and 0 when no enemy is adjacent |
| Queues.TopVertex | AIEldar.cc:107-110 | the top of the Dijkstra queue is an element no other beats under the reversed comparator: the first one of least distance |
| Queues.TopVertexIsNearest | AIEldar.cc:107-110 | the popped vertex has the least distance in the queue |
| Queues.InstrLessStrictTotal | AIEldar.cc:84-87 | Instr::operator< is irreflexive, asymmetric and transitive, and decides every pair differing in priority or id |
| Queues.TopInstr | AIEldar.cc:84-87 | the top of the instruction buffer is beaten by no other instruction |
| Queues.DispatchOrderedMeaning | AIEldar.cc:84-87 | in dispatch order priorities never increase, and at equal priority ids never increase |
| Queues.DrainStep | AIEldar.cc:789-794 | sending the top keeps the flush invariant: sent plus queued is the buffer, sent is in dispatch order, nothing queued beats anything sent |
| Queues.Dispatch | AIEldar.cc:789-794 | the flush sends a permutation of the buffer in dispatch order |
| Contention.EnemyBuilderNeverWantsWeapon | AIEldar.cc:228-257 | an enemy builder stops the search for a coin but never for a weapon |
| Contention.PopFrontier | AIEldar.cc:220-225 | a popped cell already expanded is dropped; otherwise its popped distance is its recorded distance and no smaller than any earlier one |
| Contention.Relax | AIEldar.cc:260-276 | afterwards every non-wall neighbour of u on the grid is at most one turn beyond u; a distance that changed is now exactly one turn beyond u and was larger before; the new vertices are queued at that distance; u keeps its distance and the frontier invariant holds |
| Contention.SearchStep | AIEldar.cc:220-277 | one turn of the loop either keeps the loop invariant and makes progress, or stops at an interested citizen that is the first one expanded |
| Contention.Exhausted | AIEldar.cc:277-278 | when the queue runs out with nobody interested, the entry keeps its defaults |
| Contention.ComputeClosest | AIEldar.cc:205-279 | cells are expanded once each, the origin first, in non-decreasing distance and never on a wall; the search stops at the first interested citizen and records its distance and side; with nobody interested the entry is unchanged; the kind never changes; the log is closed up to the stopping distance, or everywhere when nobody is interested |
| Contention.Scan | AIEldar.cc:212-277 | the loop stops exactly when it expands an interested citizen, the last cell of the log; otherwise the queue is empty and the loop invariant holds |
| Contention.CloseOff | AIEldar.cc:212-277 | when the search stops, every non-wall neighbour of a logged cell nearer than the bound is logged too, at most one turn farther |
| Contention.PathLogged | AIEldar.cc:212-277 | every walk from the bonus through non-wall cells within the bound ends in a logged cell, logged no farther than the walk is long |
| Contention.NearestInterested | AIEldar.cc:205-279 | whenever an interested citizen can be reached from the bonus through non-wall cells in n steps, the entry records an interested citizen at most n turns away; so the defaults stay only when no interested citizen is reachable |
| Contention.FoundNearest | AIEldar.cc:227-257 | stopping at an interested citizen records its distance and side, and the log is closed up to that distance |
| Decision.CDiv | AIEldar.cc:402-405 | C++ division truncates toward zero |
| Decision.DivBounds | AIEldar.cc:402-405 | the quotient of a non-negative number by a positive one is non-negative, at most the number over the divisor, and more than that less one |
| Decision.StrengthDemolish | AIEldar.cc:366-371 | the demolition strength is positive: the builders' constant for BUILDER, the hammer's for HAMMER, the gun's for GUN, and the bazooka's for every other weapon code |
| Decision.IsDanger | AIEldar.cc:380-384 | never dangerous when day lasts into the next round; otherwise dangerous exactly when a stronger enemy code is adjacent |
| Decision.NoBrainer | AIEldar.cc:387-397 | an obvious move exactly when the cell holds an enemy whose tier my weapon matches or beats, at night, killable in one attack and not behind a barricade, or, for a warrior, a weapon better than mine; only the weapon case upgrades the held weapon, and it upgrades to that weapon |
| Decision.MovementPenalty | AIEldar.cc:400-408 | no extra cost for a free cell; COST_WALK_INTO_FRIENDLY for my own citizen; at least -1 through an enemy; never negative elsewhere |
| Decision.PenaltyTerms | AIEldar.cc:400-408 | the penalty is the sum of its terms: for an enemy barricade the whole number k of hits with k·s <= resistance < (k + 1)·s at the weapon's demolition strength s, else 0; for an enemy the whole number of attacks its life takes, rounded toward zero, less one, else 0 |
| Decision.FewerTurnsWithStrongerWeapon | AIEldar.cc:402 | a barricade takes no more hits to knock down at a higher demolition strength |
| Decision.StrongerWeaponNeverSlower | AIEldar.cc:400-408 | everything else alike, a weapon that demolishes more never makes a step dearer |
| Decision.Lookup | AIEldar.cc:512-514 | operator[] on a bonus table: the stored entry, or the default entry for a missing key |
| Decision.Score | AIEldar.cc:494-565 | what each reached cell offers: an attack exactly for a warrior stronger than the enemy, on arrival at night, and nothing for an enemy not attacked; money, reduced to at most 0 when a closer citizen is closing in; food only when healing is needed; a wanted weapon; a claim exactly on a weapon an enemy is closest to and I do not need, at the steal profit; the deterrent exactly on a weapon a teammate is closest to and I do not need; nothing for empty cells, walls, friends or weapons someone reaches first |
| Decision.BarricadeThreshold | AIEldar.cc:588-603 | only a builder, by day, not on a barricade has a threshold: BARRICADE_INTERRUPT_THRESHOLD next to an improvable barricade, else BARRICADE_THRESHOLD below the cap, else INT_MIN |
| Decision.Commit | AIEldar.cc:586-621 | a move is made exactly when a target exists, beats the threshold, and the citizen is not in danger with a first step dearer than one turn; its priority is RUN_PRIORITY or RUN_DEATH_PRIORITY in danger, NOT_IMPORTANT when the first step is away from enemies, else the profit |
| Decision.WarriorNeverBuilds | AIEldar.cc:589-605 | a warrior is never held back by the barricade threshold |
| Decision.CappedBuilderNeverBuilds | AIEldar.cc:589-605 | a builder at the barricade cap with nothing to improve nearby is never held back either |
| Decision.Improvable | AIEldar.cc:374-377 | an improvable barricade is mine, has none of my citizens on it, and is below PERCENT_BUILD % of the maximum resistance in integer arithmetic |
| Decision.EscapeRoute | AIEldar.cc:680-683 | for a citizen holding a weapon code, an escape route is exactly a non-wall cell with no adjacent enemy stronger than that weapon |
| Decision.EscapeRouteIsSafe | AIEldar.cc:680-683 | an escape route is exactly a non-wall cell that is not dangerous once the day-time shelter is over |
| Approach.NeedHeal | AIEldar.cc:429-432 | food is wanted exactly below the initial life of the citizen's type |
| Approach.IsSafe | AIEldar.cc:453-457 | a first step is safe exactly when none of its neighbours on the board is dangerous |
| Approach.TrySeed | AIEldar.cc:441-466 | one first step is reported obvious exactly when it is a no-brainer; otherwise it is queued exactly when it is safe and admissible, at one turn plus its movement penalties |
| Approach.SeedSafe | AIEldar.cc:440-467 | either the first obvious move in direction order, or, with none, exactly the safe admissible first steps queued, each once at one turn plus its movement penalties, with the origin at distance 0 |
| Approach.SeedAny | AIEldar.cc:468-483 | exactly the admissible first steps are queued, each at one turn plus its movement penalties |
| Approach.Seeds | AIEldar.cc:437-483 | an obvious move is the first one; otherwise no step is obvious and exactly the allowed first steps are queued, each at its seed cost: the safe ones when there are any, else the admissible ones |
| Approach.SeededBy | AIEldar.cc:437-483 | whichever loop ran, what it queued is exactly the allowed first steps at their seed cost |
| Approach.BestOf | AIEldar.cc:502-563 | the best target is one of the offers, or none at profit INT_MIN, and no offer is more profitable |
| Approach.BestOfFirst | AIEldar.cc:502-563 | a real best target is the first offer of the largest profit: later ties do not replace it |
| Approach.BestOfAppend | AIEldar.cc:557-563 | one more offer replaces the best exactly when it is strictly more profitable |
| Approach.OfferFor | AIEldar.cc:502-563 | a scored cell offers exactly when it is an attack or a candidate, at its profit and with the popped first step; only a claiming candidate claims, at its cell and distance |
| Approach.ExploreStep | AIEldar.cc:486-582 | one turn pops a nearest queued vertex; a popped cell not expanded before is logged at its cell's exact distance; the popped distances stay non-decreasing with nothing queued nearer than the last of them; the loop invariant is kept (the offers are those of the popped cells in pop order, the best is the first most profitable, and the Dijkstra bookkeeping holds) and the search makes progress |
| Approach.Visit | AIEldar.cc:486-582 | expanding the popped vertex marks its cell visited, logs the vertex and scores it at its cell's exact distance, queues nothing nearer than it, and keeps the loop invariant (through Advance) |
| Approach.Expanded | AIEldar.cc:486-582 | scoring the popped vertex and relaxing past it keeps the loop invariant with its offer added |
| Approach.GoPast | AIEldar.cc:550-582 | a weapon a teammate is closest to costs DETER_PENALTY more to pass through; the search stops at an enemy to attack and relaxes the neighbours of any other cell; with every enemy's life non-negative, nothing it queues is nearer than the popped vertex |
| Approach.ExpansionAbove | AIEldar.cc:566-582 | with every enemy's life non-negative, every vertex queued by expanding the popped vertex is at least as far as it |
| Approach.PoppedOrdered | AIEldar.cc:486-582 | popping a nearest vertex and queueing nothing nearer than it keeps the popped distances non-decreasing with nothing queued nearer than the last |
| Approach.StepCostNonNegative | AIEldar.cc:400-408 | a step into a cell whose enemy value, if any, is non-negative costs at least nothing (one turn minus at most one for an enemy) |
| Approach.Deterred | AIEldar.cc:550 | only the popped cell's distance may change, to its popped distance plus DETER_PENALTY exactly on a weapon a teammate will take |
| Approach.Expand | AIEldar.cc:567-581 | every non-wall neighbour of u on the grid ends at the smaller of its old distance and u's distance plus one plus its movement penalties; each one improved is queued at that distance with u's first step; no other cell changes and no distance grows |
| Approach.Search | AIEldar.cc:485-583 | the offers are those of the expanded cells in pop order, each scored at its popped distance; the best target is the first most profitable; every cell given a distance was expanded, every allowed first step was expanded at no more than its seed cost, and every non-wall neighbour of an expanded cell that is not an enemy to attack was expanded earlier or at no more than the relaxed distance; every expanded vertex is an allowed first step at its seed cost or was relaxed out of an earlier expanded vertex, at the relaxed distance and with that vertex's first step; every expanded cell's final distance is settled; the vertices are popped in non-decreasing distance; and stepDist is the final distance of the best target's first step |
| Approach.Drain | AIEldar.cc:484-583 | the main loop from the queued first steps ends with a completed search, its vertices expanded in non-decreasing distance: its offers, the first most profitable of them, and a best target whose first step is allowed |
| Approach.ExpandAll | AIEldar.cc:486-583 | popping and expanding until the queue is empty keeps the loop invariant and expands the vertices in non-decreasing distance |
| Approach.Advance | AIEldar.cc:550-582 | going past the popped vertex, with its cell visited and its offer scored, keeps the loop invariant and queues nothing nearer than it |
| Approach.Rooted | AIEldar.cc:458-580 | every expanded vertex carries the first step of an allowed seed that was itself expanded no later, at its seed cost |
| Approach.FirstStepSettled | AIEldar.cc:485-609 | the distance reported with a real best target is the final distance of an expanded cell, the one its first step enters: no more than that cell's own relaxed-from distance nor any later relaxation into it, and equal to one of them |
| Approach.StartTracked | AIEldar.cc:458-480 | before the loop, every queued vertex is an allowed first step at its seed cost |
| Approach.OriginGrow | AIEldar.cc:575-580 | a vertex tracked to the first n expanded vertices stays tracked when one more is expanded |
| Approach.ExpandedTracked | AIEldar.cc:486-582 | expanding the popped vertex keeps every expanded and queued vertex tracked to its origin, and every expanded cell's distance settled |
| Approach.ExpandedLineage | AIEldar.cc:486-500 | the popped vertex, tracked while queued, joins the lineage of expanded vertices |
| Approach.ExpandedQueue | AIEldar.cc:566-582 | vertices still queued stay tracked; each vertex the expansion queues is a neighbour of the popped cell, at the relaxed distance, with its first step |
| Approach.ExpandedPinned | AIEldar.cc:550-582 | after an expansion the earlier expanded cells stay settled and the popped cell is settled at the distance it relaxes from |
| Approach.SettledTop | AIEldar.cc:550-582 | the popped cell keeps the distance it relaxes from (its popped distance, plus DETER_PENALTY on a weapon a teammate takes): the expansion only lowers neighbours |
| Approach.SettledKept | AIEldar.cc:566-582 | a cell expanded earlier stays settled after the expansion of a later vertex |
| Approach.KeptBound | AIEldar.cc:566-582 | a cell expanded earlier never gains distance, and ends no farther than every relaxation into it out of a later vertex, the popped one included |
| Approach.KeptWitness | AIEldar.cc:566-582 | a cell expanded earlier still has its relaxed-from distance or the distance of one relaxation into it out of a later vertex |
| Approach.RelaxedFrom | AIEldar.cc:566-582 | a cell whose distance an expansion changed is a non-wall neighbour of the popped cell, which is not an enemy to attack, and now has the relaxed distance |
| Approach.Finish | AIEldar.cc:484-583 | once the queue is empty the search is done (every cell with a distance expanded, the relaxations closed, the lineage of every expanded vertex and the settled distances kept, the popped distances non-decreasing), and every offer and a real best target start with an allowed first step |
| Approach.DrainedLog | AIEldar.cc:484-500 | with nothing queued the expanded vertices avoid the origin, start with allowed first steps, and cover every cell with a distance |
| Approach.DrainedOffers | AIEldar.cc:502-563 | every offer, and a real best target, starts with an allowed first step and claims only a weapon the citizen is closest to |
| Approach.Explore | AIEldar.cc:413-583 | the outcome of the search: the first obvious move with the weapon held after it and its cell's enemy value, or the best target of a completed search (Search's contract, held by Explored, including pops in non-decreasing distance) with the final distance and enemy value of its first step |
| Approach.ExploredClaim | AIEldar.cc:553-563 | the weapon the best target claims is one the citizen is at least as close to as the recorded closest citizen, an enemy |
| Tasks.First | AIEldar.cc:645-650 | a loop over the neighbours stops at the first that fits, and none fits when it finds nothing |
| Tasks.BuildSite | AIEldar.cc:642-669 | the first improvable barricade of mine in direction order wins; otherwise a new barricade is started only below the cap, on the first empty cell out of every enemy's reach, or on the first empty cell when there is none; nothing is built exactly when nothing fits |
| Tasks.BuildSiteKeepsCap | AIEldar.cc:651-668 | the barricade count never rises above the cap through a build |
| Tasks.Escape | AIEldar.cc:708-716 | the escape chosen is a route of strictly greatest content above the floor, the first in direction order among equals, or none when no route beats the floor |
| Tasks.WarriorAlwaysEscapes | AIEldar.cc:745-754 | with the warriors' floor INT_MIN, any escape route, enemy cells included, yields an escape |
| Tasks.BuilderEscapesToFreeCells | AIEldar.cc:708-717 | with the builders' floor -1, a builder only escapes to an empty cell or a bonus |
| Tasks.NightMove | AIEldar.cc:697-718 | a citizen runs only when an adjacent enemy beats its weapon; a barricade of mine next to it wins, the first one; otherwise the escape is taken |
| Tasks.RunPriority | AIEldar.cc:698-699 | a run has priority above a build: RUN_DEATH_PRIORITY exactly when the next attack kills |
| Tasks.Verdict | AIEldar.cc:446-628 | an obvious move is sent at VERY_HIGH_PRIORITY unless the upgraded weapon loses to the danger there; a searched target is sent exactly when it exists, beats the threshold and is not a useless step out of danger, at the run priority in danger, NOT_IMPORTANT when its first step is clear of enemies, else at its profit |
| Tasks.NightNeverWaitsToBuild | AIEldar.cc:589-605 | at night a searched target is taken unless it is missing or the step out of danger is useless |
| Bot.Claimed | AIEldar.cc:623-626 | the claimed weapon is marked as mine at the claimed distance, its kind kept; every other entry is unchanged |
| Bot.ClaimKeepsSeeded | AIEldar.cc:623-626 | claiming a weapon keeps the keys and kinds of a seeded bonus map |
| Bot.Intent | AIEldar.cc:586-628 | the instruction approach_target pushes is a move of that citizen, never a build |
| Bot.RunFor | AIEldar.cc:697-718 | a night run is at most one move of that citizen |
| Bot.BuildFor | AIEldar.cc:642-669 | a build choice is at most one build of that citizen |
| Bot.FindFirst | AIEldar.cc:702-707 | the loop finds the first neighbour that fits |
| Bot.FindEscape | AIEldar.cc:708-716 | the loop computes the chosen escape and its direction |
| Bot.ChooseRun | AIEldar.cc:697-719 | the night fallback pushes exactly the run NightMove chooses, at RunPriority |
| Bot.ChooseBuild | AIEldar.cc:642-669 | the build fallback pushes exactly the build BuildSite chooses and reports whether it starts a barricade |
| Bot.OneEach | AIEldar.cc:777-786 | when the host lists each citizen once, at most one instruction is sent per citizen |
| Bot.Eldar.constructor | AIEldar.cc:195-201 | the three grids get the board's size; the buffer and both bonus maps start empty |
| Bot.Eldar.ClearDanger | AIEldar.cc:292-295 | the enemy grid is all 0 |
| Bot.Eldar.FillCell | AIEldar.cc:300-342 | cell (i, j) gets its content code and barricade value, extending the classified prefix in row-major order |
| Bot.Eldar.UpdateDanger | AIEldar.cc:282-286 | the cell becomes MergeDanger of its old value; nothing else changes |
| Bot.Eldar.MarkEnemy | AIEldar.cc:325-332 | the enemy's life on its cell, update_danger on each neighbour on the board, nothing elsewhere |
| Bot.Eldar.SpreadDanger | AIEldar.cc:319-332 | after scanning (i, j), the enemy grid is what the scan order implies up to the next cell |
| Bot.Eldar.SeedCell | AIEldar.cc:303-314 | the bonus map holds exactly the entries of the cells scanned so far |
| Bot.Eldar.ScanCell | AIEldar.cc:300-342 | one cell of the scan extends all three row-major invariants by one cell |
| Bot.Eldar.Scan | AIEldar.cc:292-344 | after the scan every cell is classified, the enemy grid is final and the bonus map holds exactly the money and weapon cells |
| Bot.Eldar.ComputeAll | AIEldar.cc:346-349 | every seeded entry gets the outcome of compute_closest from its cell; the keys do not change |
| Bot.Eldar.BuildBoard | AIEldar.cc:289-350 | the grids describe the world, the current bonus map has exactly the money and weapon cells with their kinds and closest citizens, and the previous map is untouched |
| Bot.Eldar.ApproachTarget | AIEldar.cc:413-630 | the outcome satisfies Explored over the grids and bonus maps it starts from, so a searched best target comes from a search that expanded its vertices in non-decreasing distance, with a tracked lineage and a settled first-step distance; the move pushed is Intent of that outcome; the claimed weapon is marked only when the move is made; the bonus map stays seeded; the barricade count and previous map do not change |
| Bot.Eldar.Commit | AIEldar.cc:622-628 | the move is pushed and the weapon claimed only on the emitting path |
| Bot.Eldar.Settle | AIEldar.cc:586-628 | the instruction pushed is the one the verdict on the search outcome gives, if any; the weapon is claimed in the current bonus map exactly when a move is pushed, and a seeded map stays seeded |
| Bot.Eldar.Append | AIEldar.cc:657-666 | the chosen instructions are pushed and the barricade count goes up by one exactly when a barricade is started |
| Bot.Eldar.BuilderDayTask | AIEldar.cc:638-670 | a builder moves as approach_target says, else builds where BuildSite says; at most one instruction; the barricade count stays within the cap |
| Bot.Eldar.Build | AIEldar.cc:641-669 | the fallback of a builder by day pushes exactly the build BuildFor chooses among its neighbours and counts one more barricade exactly when that build starts a new one; the count stays within the cap and the bonus maps are untouched |
| Bot.Eldar.WarriorDayTask | AIEldar.cc:673-676 | a warrior by day only does what approach_target says: at most one move |
| Bot.Eldar.NightTask | AIEldar.cc:687-757 | at night a citizen moves as approach_target says, else runs as NightMove says, measured against BUILDER and floor -1 for a builder, its weapon and INT_MIN for a warrior; at most one move, never a build |
| Bot.Eldar.Run | AIEldar.cc:693-719 | the fallback at night pushes exactly the run RunFor chooses for the given weapon and floor, if any, and leaves the maps and the barricade count alone |
| Bot.Eldar.RunTasks | AIEldar.cc:780-786 | task k of the list starts from the bonus map and barricade count task k - 1 left (the first from those before the loop) and does what Ran says over the grids it saw: the move approach_target chose, else its fallback; what the tasks add is the concatenation of their outputs in list order, each at most one instruction for its own citizen; builds only by builders by day; the barricade count stays within the cap; the list ends with the map and count the last task left |
| Bot.Eldar.RunBoth | AIEldar.cc:780-786 | the builders' tasks run as a chain from the maps before, then the warriors' as a chain from where the last builder left off, both over the same grids; the buffer gains exactly the builders' outputs then the warriors', each at most one instruction for its citizen; builds only by builders by day; the barricade count stays within the cap |
| Bot.Eldar.RunAndFlush | AIEldar.cc:778-794 | on an empty buffer, the two chains of tasks and then the flush: what is sent is in dispatch order and a permutation of the builders' outputs followed by the warriors', each at most one instruction for its citizen; builds only by builders by day; the buffer ends empty |
| Bot.Eldar.FlushAfter | AIEldar.cc:789-794 | the flush sends a permutation of the buffer in dispatch order and keeps what the tasks saw of the grids |
| Bot.Eldar.RunNext | AIEldar.cc:780-786 | one more task extends the chain run so far, with the grids it saw |
| Bot.Eldar.RunStep | AIEldar.cc:780-786 | task k runs from the map and count task k - 1 left and extends the stage by its entry |
| Bot.Eldar.LookedGrow | AIEldar.cc:780-786 | a log whose tasks saw the grids, extended by a task that sees them too, saw them throughout |
| Bot.ChainAppend | AIEldar.cc:780-786 | a task run from where the chain left off extends the chain |
| Bot.StageStep | AIEldar.cc:780-786 | task k, run from where the k tasks before it left off, extends the stage: buffer, map, count and log |
| Bot.StageDone | AIEldar.cc:780-786 | a stage over the whole list gives the loop's outcome: the buffer gains the concatenated outputs, each task chained from the one before, the count within the cap |
| Bot.Eldar.RunTask | AIEldar.cc:636-757 | one citizen's task, from the current bonus map and barricade count, pushes the move of a reachable search outcome when it makes one, else its fallback: a build for a builder by day, nothing for a warrior by day, a run at night; it leaves the map and count Ran says |
| Bot.Eldar.NewRound | AIEldar.cc:765-774 | the current map is the odd one in an odd round and the even one otherwise; the other keeps last round's map; the board is rebuilt and the barricades counted |
| Bot.Eldar.Flush | AIEldar.cc:789-794 | the buffer is sent in dispatch order, a permutation of what was pushed, and left empty |
| Bot.Eldar.Play | AIEldar.cc:761-795 | a whole round: the map of round r is the previous map of round r + 1; the builders' tasks run as a chain from the freshly built map, whose every entry is compute_closest from its cell, and the count of my barricades; the warriors' tasks run as a chain from where the last builder left off; what is sent is in dispatch order and is a permutation of the builders' task outputs followed by the warriors', each at most one instruction for its citizen, builds only by builders by day; the barricade count stays within the cap; the buffer ends empty |
| Bot.BuiltLive | AIEldar.cc:319-332 | the enemy grid built from the world holds every enemy's life, which is positive, so every cell showing an enemy has a non-negative enemy value |
| Bot.SentAsPushed | AIEldar.cc:789-794 | a permutation of what was pushed builds only what was pushed |

## Left out

- tester.cc, the batch runner around the game, is not part of this model: it is process and file plumbing.
- The game engine and the `Player` interface (Player.hh) are not part of this model. Their queries become the fields of a `World` value (`cell`, `citizen`, `round`, `is_round_day`, my builders and warriors, the game constants). The `move` and `build` calls become the sequence `Play` returns, and their effect on the game is not modelled.
- `factory`, `RegisterPlayer`, the `cerr` debugging lines and the commented-out code (AIEldar.cc:146-147, 515, 594) are not modelled.
- `initialize` on the first round is the constructor of `Eldar`. `Play` requires a constructed player instead of testing `sz_n == 0`.
- Integer widths: the grids store `char` values and the search distances are `unsigned short`. The model uses unbounded integers: a life above 127 that would wrap in `Board_Enemy`, or a distance that would wrap past USHRT_MAX, is not modelled. USHRT_MAX (65535) is kept as the distance of an unreached cell.
- The heap layout of `std::priority_queue` is not modelled. Where several elements are maximal, the model pops the first one in insertion order. The contracts only rely on the popped element being maximal.
- The iteration order of `std::map` in the last loop of `build_board` is not modelled. `ComputeAll` picks the keys in any order: each entry is computed from the grids alone.
- `std::map::operator[]` on last round's bonus map inserts a default entry for a missing cell. The model reads the map with a default (`Lookup`) and does not insert. Every later read sees the same value either way, and that map is cleared on the next round. Bot.Eldar.Play states that the previous map is unchanged, which holds up to these default entries.
- Contention.ComputeClosest: every step costs one turn, as the code is written. The barricade cost at AIEldar.cc:267-268 is added to `distance`, a variable never read again, instead of to `new_distance`.
- Contention.ComputeClosest: it states that cells are expanded once each and nearest first, and (with NearestInterested) that no interested citizen is reachable nearer than the one recorded. It does not state that the recorded distance is exactly the length of a shortest path.
- Approach.Search: it states what is scored and at which popped distance, that the vertices are popped in non-decreasing distance, that the search closes over every relaxed edge, where every expanded vertex comes from, and that every expanded cell's final distance is settled. It does not state that the final distances are those of shortest paths: whether a cell is an attack, a weapon a teammate will take (DETER_PENALTY more to pass through) or neither depends on the distance it is reached at (day or night on arrival, profit minus distance), so the cost of leaving a cell is not fixed and there is no single graph whose shortest paths the search computes.
- Approach.Search, Drain, Explore: they require every cell showing an enemy to hold a non-negative enemy value (LiveEnemies), which the grids built from the world do (Bot.BuiltLive); with a negative life a step could cost less than nothing and the pop order would not be monotone.
- ApproachTarget: it inherits that gap. The outcome satisfies Explored, with pops in non-decreasing distance, lineage and settled distances, but the model does not prove that the popped distances are shortest-path lengths.
- Contention.NearestInterested: it covers walks of at most USHRT_MAX cells, the distance the code uses for an unreached cell.
- RunTasks: it links each task to the bonus map and barricade count the task before it left, and to the grids it saw. The grids, the citizens and the host's view do not change between tasks, as nothing in a task writes them.
- Instruction order follows `Instr::operator<` as written. The buffer pops its maximum, so among equal priorities the larger id is sent first, not the smaller.
- The search follows the code on where it may go: past the first step, it expands into every cell except walls, enemies of any strength included.
- An obvious move whose cell is too dangerous makes approach_target return false at once, as the code does (AIEldar.cc:448). The search does not fall through to later directions.
