# A tile-puzzle game, modelled in Dafny

The game is played on a level: a grid of cells with entities standing on it. Cells are
ground, walls, the goal, water, fire, coloured doors, token doors, teleporters and the
ground a sunken push block leaves. The entities are the player, collectables (keys, boots
and piles of tokens), push blocks, hint blocks and four kinds of enemy: straight-line,
wall-following, greedy chasing and A*-chasing. Every arrow key moves the player one square.
What the player steps onto reacts: a wall or a locked door sends the player back, a door
that can be opened turns to ground, water and fire kill a player without the right boots,
the goal wins the level, a teleporter sends the player on from its partner, a push block
slides or sinks, and a collectable goes into the inventory. Then each enemy takes its turn
in the order of the entity list.

The model covers:

- the coordinates and the four-way directions with their validation rules (`Geometry`);
- colour and boot names (`Colours`) and the inventory (`Items`);
- the map: its grid, its entity list, walkability, and win and loss signals (`World`);
- moves and the chain of step-on reactions, including respawning (`Interaction`), with
  the facts about each reaction (`InteractionFacts`);
- the four enemy strategies (`Strategies`) and the A* path finder (`AStar`);
- one turn of the game: the player's move, then every enemy's (`Simulation`);
- the level file: reading it (`MapReader`), writing it (`MapWriter`), and the round trip
  from saving to loading (`MapRoundTrip`);
- the small helpers: the high-score table (`Scores`), the time format (`TimerFormat`), the
  stopwatch (`Timing`), the camera (`CameraView`) and the message-of-the-day puzzle
  (`PuzzleCipher`);
- Java's int and long arithmetic, decimal printing and parsing, lower-casing and
  `String.split`, as the program uses them (`JavaText`, with `Option` in `Base`).

Objects are values. An entity carries an identity number that stands for Java's object
identity, and every operation returns the new map rather than changing one in place. The
chain of step-on reactions (move, then stepOn, then move again) need not end: teleporters can
send the player round a loop. So it runs on fuel, and running out is reported as
divergence, which stands for the stack overflow Java would hit. Randomness (the A* chaser's
fallback move) and the clock (the stopwatch) are parameters.

## Model

| member | source | states |
|---|---|---|
| Geometry.Plus | source/Vector2.java:62-109 | adding a vector to a coordinate (addXY, addXYCreateNew) is undone by subtracting it again |
| Geometry.VecStringRoundTrip | source/Vector2.java:40-42 | "x,y" of an int coordinate splits at its comma into the two numbers, which parse back to the coordinate |
| Geometry.SetX | source/Direction.java:168-179 | the new x is accepted exactly when it is in [-1, 1] and does not make the direction diagonal; the result then has that x and the old y |
| Geometry.SetY | source/Direction.java:186-197 | the mirror image of setX for the y component |
| Geometry.SetXY | source/Direction.java:153-161 | zeroing both components first means exactly the valid directions are accepted, whatever the old value |
| Geometry.MakeDirection | source/Direction.java:38-40 | the constructor accepts exactly the valid directions and stores the given components |
| Geometry.Reverse | source/Direction.java:107-109 | a direction plus its reverse is the zero vector |
| Geometry.ReverseViaSetXY | source/Direction.java:107-109 | reverse's setXY(-x, -y) never throws, and reversing twice is the identity |
| Geometry.GetLeftTable | source/Direction.java:115-133 | the left turn takes right to up, up to left, left to down, down to right and none to none, as the method's comment tabulates |
| Geometry.GetLeftViaSetters | source/Direction.java:115-133 | negating x with setX and swapping with setXY never throws on a valid direction |
| Geometry.GetRight | source/Direction.java:139-144 | the right turn of a direction turns back into it with a left turn |
| Geometry.LeftRightInverse | source/Direction.java:115-144 | a left turn and a right turn undo each other in either order |
| Geometry.FourTurns | source/Direction.java:115-144 | two left turns are a reversal; four left or four right turns are the identity |
| Geometry.DirectionToString | source/Direction.java:89-102 | the name of a direction has no upper-case letters |
| Geometry.DirectionFromString | source/Direction.java:63-81 | a word is read as a direction only when it is, ignoring case, that direction's name |
| Geometry.DirectionAnyCase | source/Direction.java:63-81 | the converse: every casing of a direction's name is read as that direction |
| Geometry.DirectionStringRoundTrip | source/Direction.java:63-102 | every direction, written as its name and read back, is the same direction |
| Colours.ColourToString | source/ColourUtils.java:23-37 | exactly the four named colours have a name, and it is lower case |
| Colours.StringToColour | source/ColourUtils.java:46-59 | a string is read as a colour only when it is, ignoring case, that colour's name |
| Colours.ColourAnyCase | source/ColourUtils.java:46-59 | the converse: every casing of a colour's name is read as that colour |
| Colours.ColourRoundTrip | source/ColourUtils.java:23-59 | every named colour, written and read back, is the same colour |
| Colours.BootName | source/Boot.java:20-33 | the boot type names are lower case |
| Colours.BootValueOf | source/Boot.java:20-33 | BootType.valueOf accepts exactly a boot type's own name |
| Colours.BootRoundTrip | source/Boot.java:20-33 | every boot type, written and read back, is the same type |
| Items.HasBoots | source/Inventory.java:70-84 | true exactly when boots of that type are among the items |
| Items.FirstKey | source/Inventory.java:93-108 | the position of the first key of the colour, or none exactly when no such key is held |
| Items.HasAndConsumeKey | source/Inventory.java:93-108 | answers whether a key of the colour is held; if so exactly the first such key is removed and everything else kept in order, otherwise nothing changes |
| Items.AddItem | source/Inventory.java:129-133 | anything but a token is appended (the multiset of things grows by it); a token leaves the inventory as it was |
| Items.AddTokens | source/Inventory.java:139-141 | the count changes by the amount modulo 2^32 and stays an int, and is the exact sum when that fits in an int |
| Items.SetNumTokens | source/Inventory.java:155-157 | the count becomes the given number and the items stay |
| Items.Collect | source/Key.java:46-50 | a key or boot is appended with the coordinate it lay on; a token's amount is added to the count instead |
| Items.CollectBoots | source/Inventory.java:70-84 | after collecting boots, hasBoots is true for that type and unchanged for the others |
| Items.CollectThenConsume | source/Inventory.java:93-108 | a key just collected opens a door of its colour |
| JavaText.Wrap32 | source/Inventory.java:139-141 | Java int arithmetic: the result is an int congruent to the exact value modulo 2^32, and the exact value when it fits |
| JavaText.Wrap32Overflow | source/Inventory.java:139-141 | a token count pushed past the largest int wraps round to a negative one |
| JavaText.JavaDivision | source/TimerFormatter.java:14-18 | Java's `/` and `%` on a positive divisor: quotient times divisor plus remainder is the dividend, the remainder has the dividend's sign and is smaller than the divisor |
| World.EmptyGrid | source/Map.java:72-82 | the new map has width columns of height null slots |
| World.SetCellAt | source/Map.java:401-410 | only the grid can change, its shape is kept, and a well-shaped map stays well-shaped |
| World.GetAfterSet | source/Map.java:401-410 | after setCellAt, getCellAt returns the written cell at that slot when the slot exists, and the old contents everywhere else |
| World.FindEntity | source/Map.java:208-210 | the index of the first entity with that identity, or none when no entity has it |
| World.EntitiesAt | source/Map.java:246-259 | exactly the entities of the list standing at the position, less the ignored one |
| World.AddEntity | source/Map.java:200-202 | the entity is appended and nothing else changes |
| World.RemoveEntity | source/Map.java:208-210 | the entity with that identity goes (one fewer entry, the multiset loses exactly it); nothing happens when it is absent |
| World.RemoveEntityGone | source/Map.java:208-210 | with distinct identities nothing with the removed identity remains |
| World.Relocate | source/Vector2.java:115-127 | the entity with that identity now stands at the new position and nothing else about the map changes |
| World.AllWalkable | source/Moving.java:88-97 | true exactly when the mover may walk onto every one of the entities |
| World.CanWalkOn | source/Moving.java:71-101 | true exactly when the point is on the map, its cell (if any) is walkable for the mover, and so is every other entity standing there |
| World.Raise | source/Map.java:114-123 | a win or loss is recorded after those already raised, and nothing else changes |
| Interaction.SetInventory | source/Player.java:41-43 | only the player with that identity changes, and only its inventory |
| Interaction.PushTarget | source/PushBlock.java:36-62 | the block slides only onto an entity-free ground square inside the map, sinks only into entity-free water, and otherwise the player is sent back (corrected for squares off the left or top edge, see Findings) |
| Interaction.PushTargetAgrees | source/PushBlock.java:39-47 | wherever the code as written does not throw it decides what PushTarget decides, and it throws exactly when the free target square has a negative coordinate |
| Interaction.PushOffLeftEdge | source/Map.java:275-284 | a block in the first column pushed left onto a free square makes getCellAt index the grid at -1 |
| Interaction.Move | source/Moving.java:136-142 | no entity with that identity, or a step canMove refuses, changes nothing; a move that settles keeps the grid's shape, the spawn point, the player reference and the start inventory, and only adds signals |
| Interaction.TriggerStepOns | source/Map.java:156-172 | the cell's and the snapshot entities' handlers together keep everything a cascade must not touch |
| Interaction.StepOnAll | source/Map.java:166-171 | the snapshot loop keeps everything a cascade must not touch |
| Interaction.CellReaction | source/Door.java:38-57 | a cell sends the mover back exactly when it is a wall, or a door the player cannot open; it moves the mover exactly when it is a linked teleporter and the mover is the player |
| Interaction.DeadlyTile | source/DeadlyTile.java:32-41 | the world either stays or gains a loss, and it gains one exactly when the mover is a player without the required boots |
| Interaction.EntityReaction | source/PushBlock.java:34-64 | no entity teleports the mover; an entity sends the mover back exactly when the mover is the player and the entity is a push block that cannot go anywhere |
| Interaction.SpawnPlayer | source/Map.java:88-102 | the new player is appended at the spawn point with a copy of the start inventory and becomes the map's player; no other entity is added and the old player is the only one removed |
| Interaction.Respawn | source/Map.java:88-102 | a respawn that settles leaves a well-shaped map whose player is the new one and whose spawn point is unchanged |
| InteractionFacts.EnemyMoveIsolated | source/Enemy.java:46-63 | an enemy's move never sets off a chain: it steps one square when canMove allows and stays otherwise, and its only other effect is a loss for each player it lands on |
| InteractionFacts.MoveSteps | source/Moving.java:136-142 | an allowed move relocates the mover one step and then fires the step-ons on the new square |
| InteractionFacts.TriggerQuietCell | source/Map.java:156-172 | when the cell does nothing, triggerStepOns is the snapshot loop |
| InteractionFacts.TriggerAlone | source/Map.java:156-172 | with nobody else on the square, only the cell reacts |
| InteractionFacts.BounceBack | source/Wall.java:39-44 | a player sent back by reversing the direction lands exactly where it started, and the world is as before |
| InteractionFacts.GoalWins | source/Goal.java:35-40 | stepping onto the goal signals a win |
| InteractionFacts.DeadlyTileStep | source/DeadlyTile.java:32-41 | water needs flippers and fire needs fire boots: without them the player dies, with them nothing happens, and the boots are kept |
| InteractionFacts.LockedDoorBounces | source/Door.java:38-57 | a door the player cannot open sends the player back; the world is exactly as before and no key is used |
| InteractionFacts.DoorOpens | source/Door.java:38-67 | a door the player can open becomes ground with the player on it; a coloured door takes exactly the first key of its colour, a token door takes no tokens; no other slot of the grid changes |
| InteractionFacts.TeleportEnters | source/Teleporter.java:111-122 | stepping onto a linked teleporter is the same move made again from its partner |
| InteractionFacts.TeleportCarriesOn | source/Teleporter.java:111-122 | when the square beyond the partner is plain and free, the player ends up on it |
| InteractionFacts.TeleportBlocked | source/Teleporter.java:111-122 | when the square beyond the partner is off the map or a wall, the player stays on the partner |
| InteractionFacts.CollectOnStep | source/Collectable.java:38-44 | a collectable is added to the player's inventory and removed from the map |
| InteractionFacts.HintOnStep | source/HintBlock.java:46-51 | a hint block shows its hint and stays |
| InteractionFacts.PlayerMeetsEnemy | source/Enemy.java:57-63 | a player walking into an enemy dies |
| InteractionFacts.PushOnStep | source/PushBlock.java:34-64 | a pushed block slides one square onto free ground with the player taking its place, or fills free water and disappears, or else the player is sent back and nothing changes |
| InteractionFacts.RelocateKeepsOthers | source/Vector2.java:124-127 | moving one entity changes no other entity |
| InteractionFacts.RelocateTwice | source/Vector2.java:124-127 | of two moves of the same entity only the last one counts |
| Strategies.StraightNext | source/StraightLineEnemy.java:39-49 | the enemy moves the way it ends up facing: straight on when that square is walkable, otherwise turned right round |
| Strategies.StraightAlternates | source/StraightLineEnemy.java:39-49 | boxed in on both sides, every move it picks is blocked and its facing flips back and forth from tick to tick |
| Strategies.WallFollowNext | source/WallFollowEnemy.java:46-101 | any move it makes is walkable and it then faces the way it moved |
| Strategies.WallFollowIsHandRule | source/WallFollowEnemy.java:46-101 | the do-while loop, for both hands, takes exactly the first open way among the hugged side, ahead, the other side and back, and keeps its facing when all are shut: the bound of five passes never cuts it short |
| Strategies.HandRuleStuck | source/WallFollowEnemy.java:46-101 | facing a compass direction, the wall follower stands still exactly when none of the four directions is walkable |
| Strategies.DumbApproaches | source/DumbTargetEnemy.java:38-75 | the greedy chaser stands still exactly when neither axis offers a walkable step toward the player; otherwise it takes a walkable step one square closer, along the axis with more ground to cover (x on a tie) when both are open |
| Strategies.Movable | source/SmartTargetEnemy.java:74-84 | the directions kept are exactly the listed ones the enemy can move in |
| Strategies.RandomMove | source/SmartTargetEnemy.java:86-94 | the random fallback only picks a walkable direction, and stands still exactly when none of up, down, left and right is walkable |
| Strategies.NeighbourIsDirection | source/SmartTargetEnemy.java:62-69 | the first square of a path is a neighbour, so the Direction constructor never throws there and the step lands on that square |
| Strategies.SmartNext | source/SmartTargetEnemy.java:55-96 | the A* chaser steps onto the first square of the path getPath returns, moves at random when there is none (also when it stands on the player), and never steps where it cannot walk except onto the player's square |
| Simulation.PlayerPos | source/Map.java:56-82 | the target square exists exactly when the map has a player on its list, and is that player's square |
| Simulation.TurningKeepsSight | source/Enemy.java:46-53 | turning an enemy does not change what it can walk on |
| Simulation.NextMove | source/Enemy.java:69 | each strategy's decision meets that strategy's promise: straight on or turn round, the hand rule, a closer walkable step, or the first step of a path and otherwise a random walkable move |
| Simulation.TurnThenMove | source/Enemy.java:30-32 | after facing the decided way and moving, the enemy's entry is its turned self one step on if it could move, and the only other change is a loss for a player it lands on |
| Simulation.EnemyTurn | source/Enemy.java:30-32 | preformNextMove decides sensibly, changes only the enemy itself (at most one square on) and signals nothing but losses |
| Simulation.UpdateEnemies | source/Map.java:185-194 | every enemy takes its turn in list order; no entity appears or goes, nothing but an enemy changes, each moves at most one square, identities stay distinct, and the only signals raised are losses |
| Simulation.Tick | source/LevelController.java:361-394 | the hint is cleared, the player moves for the arrow key pressed, and then, unless that step ended the level, the enemies move; the grid and the hint are those the player's step left |
| Scores.PairRoundTrip | source/ProfileIDScorePair.java:41-43 | a pair printed as "%d,%d" splits into exactly two fields at the comma, which parse back to the same id and score |
| Scores.FirstSlot | source/MapInfo.java:154-163 | the slot chosen is the first that is empty or holds a strictly larger score; every slot before it holds a score no larger |
| Scores.InsertHighScore | source/MapInfo.java:133-146 | the entries before the position stay, the new pair takes the position, each later slot takes the entry above it and the last entry is dropped; a position past the end changes nothing |
| Scores.InsertHighScoreIsInserted | source/MapInfo.java:133-146 | the swapping loop computes the table shifted down one slot from the position |
| Scores.TryAddScore | source/MapInfo.java:154-163 | the score goes into the first slot it beats, shifting the rest down, and leaves the table alone when it beats none |
| Scores.TryAddKeepsRanked | source/MapInfo.java:154-163 | a table whose filled slots come first in ascending order of time stays so, with the same number of slots |
| Scores.TieGoesAfter | source/MapInfo.java:157 | a time equal to one already in the table goes in after it, since only a strictly smaller score displaces an entry |
| Scores.NoPlaceNoChange | source/MapInfo.java:154-163 | the table is unchanged exactly when no slot gives way to the time; a table with an empty slot always takes it |
| Scores.InsertedContents | source/MapInfo.java:133-146 | inserting replaces exactly the last entry by the new pair: the contents afterwards plus the entry that fell off are the contents before plus the pair |
| TimerFormat.PadZero | source/TimerFormatter.java:20 | "%0Nd" gives at least N characters, digits denoting the value when it is not negative and a leading minus sign when it is |
| TimerFormat.PadZeroFits | source/TimerFormatter.java:20 | a value below 10^N is printed in exactly N characters |
| TimerFormat.FormatNonNegative | source/TimerFormatter.java:12-21 | a time that is not negative is printed as nine characters "mm:ss:mmm", the fields reading back as the minutes within the hour, the seconds within the minute and the milliseconds within the second |
| TimerFormat.FieldsWithinHour | source/TimerFormatter.java:14-18 | the three fields put back together give the time modulo one hour, so only whole hours are lost |
| TimerFormat.FormatNegative | source/TimerFormatter.java:12-21 | a negative time is printed with the fields of its magnitude, each negated, as Java's truncating division gives them |
| Timing.GetElapsedTime | source/Stopwatch.java:76-86 | reports the stored time plus, when running, the time from the last start to the first clock reading; a paused stopwatch stays as it is, a running one stores the report and restarts from the second clock reading that start() makes |
| Timing.Pause | source/Stopwatch.java:47-51 | pausing stops the stopwatch and stores the time getElapsedTime reports at the first clock reading |
| Timing.Restart | source/Stopwatch.java:65-68 | after restart the stopwatch runs from now with nothing elapsed |
| Timing.RunNeverLoses | source/Stopwatch.java:38-86 | under a clock that never goes back, any run of start, pause and getElapsedTime never lowers the stored time |
| Timing.ReportsNeverDecrease | source/Stopwatch.java:76-86 | once a time is reported, every later report is at least as large while only start, pause and getElapsedTime happen in between |
| Timing.PauseFreezes | source/Stopwatch.java:47-51 | a paused stopwatch reports the same time at every later clock reading |
| Timing.GetLosesGap | source/Stopwatch.java:76-86 | asking a running stopwatch for the time lowers every later report by exactly the time between getElapsedTime's clock reading and start()'s; a paused one loses nothing |
| Timing.StartAgainDrops | source/Stopwatch.java:38-41 | starting a running stopwatch again throws away the time since it last started; starting a paused one loses nothing |
| Timing.GetThenStart | source/LevelController.java:365-366 | the key handler's getElapsedTime followed by start reads the clock three times and loses exactly the time from the first reading to the third |
| CameraView.CentreOnPoint | source/Camera.java:30-33 | centring moves only the top-left corner; the size stays |
| CameraView.CentredInView | source/Camera.java:30-49 | centring on a point brings it into view exactly when the camera has a positive width and height |
| CameraView.CentredMargins | source/Camera.java:26-33 | centring leaves size/2 cells (rounded down) left of and above the point, and an odd size puts the point in the middle, as the method's comment says |
| CameraView.CentreNearIntMax | source/Camera.java:42 | near the largest int the right edge wraps round, and the point the camera was centred on is out of view |
| PuzzleCipher.GetPuzzleSolution | source/MessageOfTheDay.java:51-70 | the solution is as long as the puzzle, each position holding that code unit moved one down (odd positions, wrapping below 'A' to 'Z') or one up (even positions, wrapping above 'Z' to 'A') |
| PuzzleCipher.CaesarShift | source/MessageOfTheDay.java:53-68 | on capital letters the cipher is a shift round the alphabet, forward at even positions and back at odd ones |
| PuzzleCipher.SolvedPosed | source/MessageOfTheDay.java:53-68 | on capitals, solving undoes the opposite shift and vice versa |
| PuzzleCipher.SolutionDeterminesPuzzle | source/MessageOfTheDay.java:51-70 | two puzzles of capital letters with the same solution are the same puzzle |
| JavaText.ParseIntRoundTrip | source/Vector2.java:40-42 | every int printed in decimal is parsed back by Integer.parseInt to itself |
| JavaText.JavaSplitJoin | source/MapInfo.java:54 | fields without the separator, joined by it, are split back into the same fields |
| AStar.Heuristic | source/AStarNode.java:41-45 | the Manhattan distance to the target: zero exactly on the target and one exactly next to it |
| AStar.HeuristicStep | source/AStarNode.java:41-45 | one step along an axis changes the heuristic by at most one |
| AStar.NewNode | source/AStarNode.java:29-35 | a new node is open, at its coordinate, with its parent, a heuristic that is zero exactly on the target, and an f cost that is its heuristic plus its parent's f cost (or just its heuristic without a parent) |
| AStar.CompareByHeuristicOnly | source/AStarNodeComparator.java:10-25 | because the first test compares node1's f cost with itself, the comparator orders by heuristic alone and f costs never matter |
| AStar.CompareAntisymmetric | source/AStarNodeComparator.java:10-25 | compare(a, b) is minus compare(b, a), as a Comparator must be |
| AStar.ShouldIgnore | source/AStarPathFinder.java:97-110 | a coordinate that is not ignored lies on the map and the mover can walk on it (corrected for negative coordinates, see Findings) |
| AStar.ShouldIgnoreAgrees | source/AStarPathFinder.java:97-110 | on coordinates that are not negative the code as written decides what ShouldIgnore decides |
| AStar.ShouldIgnoreLeftEdge | source/AStarPathFinder.java:99-102 | the left neighbour of a node in the first column makes the code as written index the node array at -1, where ShouldIgnore ignores it |
| AStar.ProcessNeighbour | source/AStarPathFinder.java:121-169 | the target always gets a fresh node with f cost 0; any other neighbour on the map that the mover can walk on gets a node; existing nodes keep their place, coordinate and closedness, and the search invariant is kept |
| AStar.Expand | source/AStarPathFinder.java:53-60 | after the four neighbour steps (up, right, down, left) every neighbour of the current node that is the target or walkable has a node, and the search invariant is kept |
| AStar.Poll | source/AStarPathFinder.java:64-67 | poll takes out a node of least heuristic cost under the comparator and closes it, keeping the search invariant |
| AStar.SearchLoop | source/AStarPathFinder.java:38-68 | the loop ends on a closed node on the target, or with the open list empty after every square reachable from the start has been given a node |
| AStar.ExhaustedUnreachable | source/AStarPathFinder.java:50-68 | a search that ran dry proves that no walk of walkable squares leads from the start to the target |
| AStar.Reconstruct | source/AStarPathFinder.java:72-87 | following the parent links back and reversing them gives a path from a neighbour of the start to the target, each step to a neighbouring square; it is empty only when the search stopped on the start |
| AStar.GetPath | source/AStarPathFinder.java:38-88 | nothing when the start is the target; otherwise a path exactly when the target is reachable, running from a neighbour of the start to the target, each step to a neighbouring square, every square but the target on the map and walkable by the mover |
| MapReader.CellFromSymbol | source/MapReader.java:31-67 | a character is accepted only when it is a cell's own symbol, 'd' standing for a door that is read as a wall until its metadata line arrives |
| MapReader.SymbolRoundTrip | source/MapReader.java:31-67 | every cell's symbol is lower case and reads back as the cell, less what only its metadata line carries |
| MapReader.NewMap | source/Map.java:72-82 | a new map has the given number of columns of the given height, no entities and no player |
| MapReader.ReadRow | source/MapReader.java:280-283 | a row is accepted exactly when every character of it is a cell symbol; it then fills row y from column x on, drops what lies past the right edge and changes nothing else |
| MapReader.ReadRows | source/MapReader.java:277-288 | the rows are accepted exactly when every character of every row is a cell symbol after lower-casing; the grid keeps its shape and holds those cells |
| MapReader.Place | source/Map.java:200-202 | an entity a line creates is appended with the next unused identity; a line that creates none adds nothing |
| MapReader.JavaSetCell | source/Map.java:401-410 | setCellAt throws exactly when it reaches a negative index (x inside the width but x or y negative) and is otherwise the bounded store |
| MapReader.ParseTeleporter | source/MapReader.java:102-119 | a teleporter line succeeds exactly when it has a parseable partner coordinate and both slots hold teleporters, and then links only the first to the second |
| MapReader.ParseDoor | source/MapReader.java:120-137 | "token" (in any case) makes a token door needing the count in field 4; a colour name makes a door of that colour; anything else fails |
| MapReader.ParseEnemy | source/MapReader.java:186-237 | an enemy stands at the line's coordinate; its facing is field 4 read as a direction, right when absent; a wall follower hugs its right hand exactly when field 5 is "right" |
| MapReader.ParseLine | source/MapReader.java:77-243 | a line of at most two fields is ignored; a line that succeeds changes only the spawn point, the start inventory, the saved time and cells, and any entity it creates stands at the line's coordinate |
| MapReader.UnknownKeyword | source/MapReader.java:236-241 | a keyword the reader does not know fails the load |
| MapReader.ReadMeta | source/MapReader.java:291-297 | a failure names one of the metadata lines; a success keeps the grid's shape, the player reference, the hint and the signals, only appends entities and numbers them 0, 1, ... when they were so numbered |
| MapReader.ReadLine | source/MapReader.java:292-296 | one metadata line, then the rest: the load fails with that line's error or a later line's; otherwise the entity the line makes is added and the rest is read, keeping the shape, player reference, hint and signals |
| MapReader.ReadMap | source/MapReader.java:254-309 | an empty file, or a first line that is not two fields, fails on the dimensions; a loaded map has the dimensions the first line gives, both not negative, with that many rows present, and its entities numbered 0, 1, ... with no player placed |
| MapWriter.CellMeta | source/MapWriter.java:40-44 | exactly the doors and the linked teleporters write a metadata line |
| MapWriter.InventoryMeta | source/Inventory.java:50-63 | one "invitem" line per item, in order, and a final "invtoken" line with the count |
| MapWriter.EntityMeta | source/Player.java:46-55 | the player writes its "start" line then its inventory; every other entity writes a single line |
| MapWriter.RowLine | source/MapWriter.java:35-37 | row y holds the symbol of each cell of that row, left to right |
| MapWriter.SaveMap | source/MapWriter.java:21-67 | the file starts with "width,height", then one line of symbols per row, and ends with the saved time |
| MapRoundTrip.SaveLoadRoundTrip | source/MapWriter.java:21-67 | loading a saved map gives it back as a level: the grid with its doors and teleporter links, the other entities in order with fresh identities, the player's square as the spawn point, its inventory as the start inventory, and the saved time |
| MapRoundTrip.ColouredDoorLineRead | source/ColouredDoor.java:35-38 | a coloured door's metadata line reads back as that door at that slot |
| MapRoundTrip.TokenDoorLineRead | source/TokenDoor.java:34-37 | a token door's metadata line reads back as the same door at that slot |
| MapRoundTrip.TeleporterLineRead | source/Teleporter.java:83-86 | a linked teleporter's metadata line restores its link |
| MapRoundTrip.EnemyLineRead | source/WallFollowEnemy.java:40-43 | an enemy's metadata line reads back as the same strategy, facing and, for a wall follower, hand |
| MapRoundTrip.InvItemLineRead | source/MapReader.java:172-181 | an "invitem" line of the player's inventory adds the same item to the start inventory |
| JavaText.ToLower | source/MapReader.java:91 | lower-casing keeps the length, maps each character on its own and leaves no upper-case letter |
| JavaText.ToLowerFixesLowercase | source/MapReader.java:91 | a word with no upper-case letter is its own lower-case form, so a keyword written in lower case matches itself |
| JavaText.ParseBoundedRoundTrip | source/MapReader.java:87-88 | any number within the parser's range, printed in decimal, parses back to itself |
| JavaText.ParseLongRoundTrip | source/MapInfo.java:70 | every long printed in decimal is parsed back by Long.parseLong to itself |
| Strategies.WallFollowTurning | source/WallFollowEnemy.java:46-101 | facing a compass direction, the loop of getNextMove decides exactly what the hand rule decides |
| Strategies.HandRuleStaysFacing | source/WallFollowEnemy.java:46-101 | a wall follower facing a compass direction that stands still keeps its facing |
| PuzzleCipher.SolutionOfCapitals | source/MessageOfTheDay.java:51-70 | a puzzle of capital letters has a solution of capital letters from which each letter of the puzzle is recovered by the opposite shift |
| Timing.KeepsNeverLoses | source/Stopwatch.java:38-86 | with a clock that does not go back, one start, pause or getElapsedTime never lowers the stored time and leaves the stopwatch consistent with later readings |
| AStar.PathLeads | source/AStarPathFinder.java:72-87 | a reconstructed path, less its last square, is a walk of walkable squares from the start that ends next to the target |
| AStar.ExhaustedAtEnd | source/AStarPathFinder.java:50-68 | an empty open list with every tracked node expanded means the search has seen every square it can reach |
| TimerFormat.FormatMilliseconds | source/TimerFormatter.java:12-21 | the text is never shorter than nine characters ("MM:SS:mmm"); what the fields hold is stated by TimerFormat.FormatNonNegative, TimerFormat.FieldsWithinHour and TimerFormat.FormatNegative |
| Strategies.Hug | source/WallFollowEnemy.java:58-100 | one pass of the do-while loop of either hand: a move it returns other than standing still can be made, and the enemy then faces the way it moves |
| Strategies.DumbNext | source/DumbTargetEnemy.java:38-75 | the greedy choice of DumbTargetEnemy; Strategies.DumbApproaches states that it stands still exactly when neither axis toward the target is open, and that otherwise it makes a legal move that brings the enemy one step closer, along the longer axis when both are open |
| AStar.Compare | source/AStarNodeComparator.java:10-25 | the comparator as written, whose first test compares a node's f-cost with itself; AStar.CompareByHeuristicOnly states that the order therefore depends on the heuristic alone, and AStar.CompareAntisymmetric that it is antisymmetric |
| AStar.CalcFCost | source/AStarNode.java:53-55 | the f-cost of a node: its heuristic plus its parent's f-cost, or the heuristic alone without a parent; AStar.NewNode states the node that results |
| AStar.ShouldIgnoreAsWritten | source/AStarPathFinder.java:97-110 | shouldIgnore as written, with its out-of-range index on a negative coordinate made explicit; AStar.ShouldIgnoreLeftEdge gives an input where it throws, and AStar.ShouldIgnoreAgrees states that whenever it does not throw it decides what AStar.ShouldIgnore decides |
| Timing.NewStopwatch | source/Stopwatch.java:19-33 | a paused stopwatch holding the given elapsed time; both constructors are this with 0 or the argument |
| Timing.Start | source/Stopwatch.java:38-41 | start records the clock reading and sets the stopwatch running; Timing.StartAgainDrops states that starting a running stopwatch again throws away the time since its last start |
| Timing.Reset | source/Stopwatch.java:57-60 | reset clears the elapsed time and stops the stopwatch; Timing.Restart states the result of reset followed by start |
| Timing.SetElapsedTime | source/Stopwatch.java:92-94 | setElapsedTime overwrites the elapsed time and leaves running or paused as it was; Timing.RunNeverLoses names it among the calls that may lower the time |
| CameraView.NewCamera | source/Camera.java:20-23 | a camera of the given size with its corner at the origin; CameraView.CentreNearIntMax uses it for the case where centring wraps past the int range |
| CameraView.IsPointInView | source/Camera.java:40-49 | the half-open view test, with Java's int wrap-around in the far edge; CameraView.CentredInView states that a point the camera is centred on is in view exactly when both sizes are positive |
| Scores.PairToString | source/ProfileIDScorePair.java:41-43 | the "id,score" line always holds a comma; Scores.PairRoundTrip states that Scores.ParsePair reads it back to the same pair when the id is an int and the score a long |
| Scores.ParsePair | source/MapInfo.java:54-70 | one line of the info file read as loadMapInfo reads it: two comma-separated fields, an int profile id and a long score, or nothing; Scores.PairRoundTrip states that it inverts Scores.PairToString on an int id and a long score |
| Geometry.VecToString | source/Vector2.java:40-42 | the "x,y" text of a coordinate; Geometry.VecStringRoundTrip states that for an int coordinate splitting it at the comma and parsing the two fields gives the coordinate back |
| Geometry.ParseVec | source/MapReader.java:87-88 | two decimal fields make a coordinate only when both are Java ints, so both components of the result are within the int range |
| Geometry.GetLeft | source/Direction.java:115-133 | turning left; Geometry.GetLeftTable states the four cases, Geometry.LeftRightInverse that it undoes Geometry.GetRight and Geometry.FourTurns that four turns come back to the start |
| World.GetCellAt | source/Map.java:275-284 | the cell at a square, or none past the grid's far edges; World.GetAfterSet states that after World.SetCellAt it reads the stored cell at that square, when the slot exists, and every other square as before |
| World.CanMove | source/Moving.java:109-115 | a mover can move in a direction exactly when it can walk on the square one step that way (World.CanWalkOn) |
| Interaction.OpenDoor | source/Door.java:64-67 | opening a door puts ground where the door was; InteractionFacts.DoorOpens states that a player able to open a door steps onto ground there |
| Interaction.PushTargetAsWritten | source/PushBlock.java:39-47 | the push decision as written, with getCellAt's out-of-range index on a negative coordinate made explicit; Interaction.PushOffLeftEdge gives an input where it throws and Interaction.PushTargetAgrees states that otherwise it decides what Interaction.PushTarget decides |
| Interaction.Follow | source/Wall.java:39-44 | carries out a reaction: a quiet reaction ends the cascade with the shared direction unchanged, a bounce moves the mover back along the reversed direction (also source/Door.java:53-54 and source/PushBlock.java:59-62) and a teleport moves it on from the partner; a cascade that settles keeps the map's frame |
| Interaction.LockedFor | source/ColouredDoor.java:41-46 | a coloured door is locked for an inventory without a key of its colour, and a token door (source/TokenDoor.java:40-48) for one with fewer tokens than it requires; InteractionFacts.LockedDoorBounces and InteractionFacts.DoorOpens state what stepping on each does |
| Interaction.CurrentState | source/Map.java:156-172 | triggerStepOns visits the entities found at the start of the step, each as it is when its turn comes: the result is the entity as now on the map, or the snapshot if it has left |
| Simulation.SetFacing | source/Moving.java:120-129 | turning an enemy left or right changes its own list entry to face the new way and nothing else on the map |
| Simulation.TakeTurn | source/Enemy.java:30-32 | one enemy's preformNextMove, as Map.updateEnemies calls it (source/Map.java:185-194): only the entity list and the signals change, the only signals added are losses, the enemy's entry is replaced by a successor of the same kind and strategy, and it moves at most one square |
| MapReader.ParseEntry | source/MapReader.java:90-237 | the keyword switch of parseMapMetadataStr: an accepted line may change the spawn point, cells of the grid (never its shape), the start inventory and the last time, and never the entity list or anything else; an entity it creates stands at the line's coordinates |
| MapWriter.ColourName | source/ColourUtils.java:23-37 | the name a coloured door or key is saved under, "null" for a colour without a name (source/Key.java:34); MapRoundTrip.ColourPlain states that a named colour's name has no comma and is not the token keyword |
| JavaText.ParseInt | source/MapReader.java:87-88 | Integer.parseInt: a result is always within the int range; JavaText.ParseIntRoundTrip states that it reads back the decimal text of every int |
| JavaText.ParseLong | source/MapInfo.java:70 | Long.parseLong: a result is always within the long range; JavaText.ParseLongRoundTrip states that it reads back the decimal text of every long |
| JavaText.JavaSplit | source/MapReader.java:78 | String.split on one character: no field holds the separator, and a text without the separator is its own single field; JavaText.JavaSplitJoin states that splitting fields joined with the separator gives them back when none holds it and the last is not empty |

## Left out

- Interaction.PushTarget: treats a target square off the left or top edge as blocked, where the code throws; see Findings. `Interaction.Move` and everything built on it use the corrected decision.
- AStar.ShouldIgnore: completes the bounds test with the lower edges, where the code throws on a negative coordinate; see Findings. `AStar.GetPath` and the A* chaser use the corrected test.
- Simulation.NextMove: a greedy or A* chaser on a map with no player decides to stand still, where DumbTargetEnemy.java:42 and SmartTargetEnemy.java:99-102 dereference the missing player and throw a NullPointerException.
- Simulation.NextMove: an A* chaser decides to stand still when it or the player is off the grid, where the code calls getPath anyway. It would then index the node array out of range (AStarPathFinder.java:47, 129) or search without reaching the target.
- Simulation.Tick: when the player's step wins or loses the level, the turn ends with the world that step left. In the game, win() and lose() restart the level (LevelController.java:96, 307, 354), reloading the map from its file, and processKeyEvent then moves the enemies of the reloaded map (LevelController.java:386-390). Reloading is file I/O and is not part of this model.
- JavaText.ToLower: lower-cases the ASCII letters only. Java's String.toLowerCase covers all of Unicode and would, for instance, read "\u212Aey" (Kelvin sign) as "key".
- JavaText.ParseBounded: accepts ASCII digits only. Integer.parseInt and Long.parseLong also accept the other Unicode decimal digits (Character.digit).
- Geometry.Plus: coordinates are unbounded integers; Java's int sum would wrap round near the int range's ends, which no coordinate on a map comes near.
- AStar.NewNode: the f cost is an unbounded sum, where AStarNode's int sum (source/AStarNode.java:29-35) would wrap round once a chain of heuristics added along a path passed 2^31 - 1.
- Timing: the stopwatch's long arithmetic is unbounded, and each System.currentTimeMillis call is a parameter (`now`, and `restartAt` for the second reading inside getElapsedTime and pause); nothing ties the readings to a real clock beyond the ordering a lemma requires.
- TimerFormat.FormatMilliseconds: the long arithmetic is unbounded; Java's would wrap only past 2^63 milliseconds.
- MapWriter.SaveMap: requires every grid slot filled and every teleporter linked (MapWriter.Savable); on any other map Java's writer throws a NullPointerException (MapWriter.java:37, Teleporter.java:85), and the model leaves such maps outside its domain instead of giving an error result.
- Scores.ParsePair: reads one line of the info file as loadMapInfo does. The rest of loadMapInfo and save (opening files, and asking ProfileManager whether the profile still exists) is file I/O and is not part of this model.
- Scores.InsertHighScore: takes a position that is not negative; its only caller never passes a negative one.
- World.GetCellAt, World.SetCellAt: require coordinates that are not negative, which Java would index out of range; the callers that can meet one decide before calling (Interaction.PushTarget, AStar.ShouldIgnore), and MapReader.JavaSetCell models the throw for coordinates read from a file.
- The priority queue of the A* search is a sequence from which a node of least heuristic is taken; which of several equal nodes Java's PriorityQueue would take is left open.
- The order of a saved file is one line per element of a sequence; the platform's line separator is not modelled.
- MapRoundTrip.SaveLoadRoundTrip: holds for levels the file format can carry (MapRoundTrip.Reloadable): at most one player; every grid slot filled; every teleporter linked to a teleporter on the map; coloured doors and keys (on the map or in the player's inventory) of a named colour, since for any other colour the writer puts "null" (source/Key.java:34, source/ColourUtils.java:36) and the reader rejects it (source/MapReader.java:139-146); no token among the player's inventory items, which always holds because Inventory.addItem drops tokens (source/Inventory.java:129-133); sizes, positions, counts and the time within Java's int or long range; hint texts that are not empty and have no comma, since the reader splits lines at commas.
- Vector2.equals and the copy constructors of Vector2, Direction and Inventory are Dafny's value equality and value semantics. The one shared mutable object is the Direction a move is given, which Wall.stepOn, Door.stepOn and PushBlock.stepOn reverse in place (source/Wall.java:42, source/Door.java:53, source/PushBlock.java:60) and the mover and the later step-ons then see; the model threads it through the cascade as `Cascade.dir` (Interaction.Follow, Interaction.Move). Every other copy is a value.
- Setters that only store a field (ProfileIDScorePair's, AStarNode.setFCost and setParent, Moving.turnLeft and turnRight) are record updates at their call sites.
- Rendering, images and sprites (OnGrid.render, Map.render, Map.centreCamOnPlayer), sound, and the JavaFX scenes and controllers. Only the order of one turn is taken from LevelController.
- Profiles, the leaderboard and the file and directory handling of FileManager and ProfileManager.
- The network part of MessageOfTheDay (sending the GET request and fetching the message). Only getPuzzleSolution is modelled.
- Images that fail to load (the MalformedURLException branches): every image is taken to load.

## Findings

| source | as written | input that shows it | evidently intended | confidence | as-written member | corrected member |
|---|---|---|---|---|---|---|
| source/PushBlock.java:39-47 with source/Map.java:275-284 | once no entity stands on the square beyond the block, getCellAt is asked about it; getCellAt tests only `grid.length > x` and `grid[x].length > y`, so a square with a negative coordinate indexes the grid out of range | a push block at (0, y) pushed left (or at (x, 0) pushed up) with no entity at (-1, y): getCellAt(-1, y) throws ArrayIndexOutOfBoundsException | a square off the map is no place to slide or sink, so the player is sent back as for a square past the right or bottom edge | not executed | Interaction.PushTargetAsWritten, Interaction.PushOffLeftEdge | Interaction.PushTarget, Interaction.PushTargetAgrees |
| source/AStarPathFinder.java:99-102 | shouldIgnore tests only `nodes.length > x` and `nodes[0].length > y` before indexing `nodes[x][y]` | an A* chaser whose search expands a node in column 0 (or row 0) calls shouldIgnore on (-1, y), which passes the test and indexes nodes[-1] | a coordinate off the map is ignored, as one past the right or bottom edge is | not executed | AStar.ShouldIgnoreAsWritten, AStar.ShouldIgnoreLeftEdge | AStar.ShouldIgnore, AStar.ShouldIgnoreAgrees |
