/**
 * Moving.move and the step-on table: every cell and entity reacts when a mover arrives on
 * its square, and some reactions move the mover again. The chain move -> triggerStepOns ->
 * stepOn -> move need not end (two teleporters can send a player back and forth), so the
 * five mutually recursive functions carry fuel; running out of it is `Diverged`, where the
 * Java program would exhaust its stack.
 */
module Interaction {
  import opened Base
  import opened Geometry
  import opened Colours
  import opened Items
  import opened World

  /**
   * The outcome of a move with everything it set off. `dir` is the direction object the
   * move was given: bounces reverse it in place, and later handlers see the reversed value.
   */
  datatype Cascade = Settled(world: World, dir: Direction) | Diverged

  /**
   * What a cascade never touches: the grid's dimensions, the spawn point, the player
   * reference, the start inventory, the saved time and the id counter; signals only grow.
   */
  predicate Frame(w: World, r: World)
  {
    WellShaped(w) && WellShaped(r) && Width(r) == Width(w) && Height(r) == Height(w) &&
    r.spawn == w.spawn && r.player == w.player && r.startInv == w.startInv &&
    r.lastTime == w.lastTime && r.nextId == w.nextId && w.signals <= r.signals
  }

  predicate IsPlayerMover(w: World, id: nat) { Lookup(w, id).Some? && Lookup(w, id).value.kind.Player? }

  predicate IsEnemyMover(w: World, id: nat) { Lookup(w, id).Some? && Lookup(w, id).value.kind.Enemy? }

  /** The mover's square can be looked up in the grid (it is not at a negative coordinate). */
  predicate StandsOnGrid(w: World, id: nat)
  {
    Lookup(w, id).Some? ==> Lookup(w, id).value.pos.x >= 0 && Lookup(w, id).value.pos.y >= 0
  }

  /** Replaces the inventory of the player with this id. */
  function SetInventory(w: World, id: nat, inv: Inventory): (r: World)
    ensures r.(entities := w.entities) == w && |r.entities| == |w.entities|
    ensures IsPlayerMover(w, id) ==> Lookup(r, id) == Some(Lookup(w, id).value.(kind := Player(inv)))
  {
    match Lookup(w, id)
    case Some(e) =>
      if e.kind.Player? then
        FindAfterUpdate(w.entities, id, FindEntity(w.entities, id).value, e.(kind := Player(inv)));
        UpdateEntity(w, id, e.(kind := Player(inv)))
      else w
    case None => w
  }

  /** Door.open: the door's own slot becomes Ground. */
  function OpenDoor(w: World, at: Vec): World
    requires at.x >= 0 && at.y >= 0
  {
    SetCellAt(w, at, Ground)
  }

  /** Where a pushed block ends up. */
  datatype PushOutcome = Slide(to: Vec) | Sink(to: Vec) | Blocked

  /**
   * PushBlock.stepOn's decision: the block can only go to an entity-free square; ground
   * there lets it slide, water swallows it, anything else (including no cell, and a square
   * off the left or top edge) sends the player back.
   */
  function PushTarget(w: World, from: Vec, d: Direction): (r: PushOutcome)
    ensures r.Slide? ==> r.to == Plus(from, d) && r.to.x >= 0 && r.to.y >= 0 &&
                         EntitiesAt(w.entities, r.to, None) == [] &&
                         GetCellAt(w, r.to).Some? && IsGroundLike(GetCellAt(w, r.to).value)
    ensures r.Sink? ==> r.to == Plus(from, d) && r.to.x >= 0 && r.to.y >= 0 &&
                        EntitiesAt(w.entities, r.to, None) == [] &&
                        GetCellAt(w, r.to) == Some(Water)
    ensures r.Blocked? ==> var t := Plus(from, d);
                           EntitiesAt(w.entities, t, None) != [] || t.x < 0 || t.y < 0 ||
                           GetCellAt(w, t).None? ||
                           !(IsGroundLike(GetCellAt(w, t).value) || GetCellAt(w, t).value.Water?)
  {
    var t := Plus(from, d);
    if EntitiesAt(w.entities, t, None) != [] then Blocked
    else if t.x < 0 || t.y < 0 then Blocked
    else match GetCellAt(w, t)
      case Some(c) => if IsGroundLike(c) then Slide(t) else if c.Water? then Sink(t) else Blocked
      case None => Blocked
  }

  /**
   * PushBlock.stepOn's decision as written: once no entity is in the way, Map.getCellAt is
   * asked about the square even when it lies off the left or top edge, where it indexes the
   * grid out of range (None stands for the exception).
   */
  function PushTargetAsWritten(w: World, from: Vec, d: Direction): (r: Option<PushOutcome>)
  {
    var t := Plus(from, d);
    if EntitiesAt(w.entities, t, None) != [] then Some(Blocked)
    else if t.x < 0 || t.y < 0 then None
    else match GetCellAt(w, t)
      case Some(c) => Some(if IsGroundLike(c) then Slide(t) else if c.Water? then Sink(t) else Blocked)
      case None => Some(Blocked)
  }

  /** Whenever the code as written does not throw, it decides what PushTarget decides. */
  lemma PushTargetAgrees(w: World, from: Vec, d: Direction)
    ensures PushTargetAsWritten(w, from, d).Some? ==> PushTargetAsWritten(w, from, d) == Some(PushTarget(w, from, d))
    ensures PushTargetAsWritten(w, from, d).None? <==>
              EntitiesAt(w.entities, Plus(from, d), None) == [] && (Plus(from, d).x < 0 || Plus(from, d).y < 0)
  {
  }

  /**
   * A block in the first column pushed left with nothing beyond it: the code as written
   * throws, where PushTarget sends the player back.
   */
  lemma PushOffLeftEdge(w: World, y: int)
    requires EntitiesAt(w.entities, Vec(-1, y), None) == []
    ensures PushTargetAsWritten(w, Vec(0, y), DirLeft).None?
    ensures PushTarget(w, Vec(0, y), DirLeft) == Blocked
  {
    assert Plus(Vec(0, y), DirLeft) == Vec(-1, y);
  }

  /**
   * What a step-on handler decides, apart from the recursion it may start: stay in the
   * (possibly changed) world, send the mover back the way it came (mover.move(dir.reverse())
   * after reversing the shared direction), or put the mover somewhere and repeat the move.
   */
  datatype Reaction = Stay(world: World) | Bounce | Teleport(to: Vec)

  /** Moving.move: nothing happens unless canMove(d); otherwise step and fire the step-ons. */
  function Move(w: World, id: nat, d: Direction, fuel: nat): (r: Cascade)
    requires WellShaped(w)
    ensures r.Settled? ==> Frame(w, r.world)
    ensures Lookup(w, id).None? ==> r == Settled(w, d)
    ensures Lookup(w, id).Some? && !CanMove(w, Lookup(w, id).value, d) ==> r == Settled(w, d)
    decreases fuel, 0, 0
  {
    match Lookup(w, id)
    case None => Settled(w, d)
    case Some(m) =>
      var dest := Plus(m.pos, d);
      if !CanWalkOn(w, m, dest) then Settled(w, d)
      else if fuel == 0 then Diverged
      else TriggerStepOns(Relocate(w, id, dest), id, d, fuel - 1)
  }

  /**
   * Map.triggerStepOns: the cell under the mover and the other entities on its square are
   * both read first; then the cell's handler runs, then each entity of that snapshot in
   * list order, each seeing the direction as the previous handlers left it.
   */
  function TriggerStepOns(w: World, id: nat, d: Direction, fuel: nat): (r: Cascade)
    requires WellShaped(w) && StandsOnGrid(w, id)
    ensures r.Settled? ==> Frame(w, r.world)
    decreases fuel, 3, 0
  {
    match Lookup(w, id)
    case None => Settled(w, d)
    case Some(m) =>
      var snapshot := EntitiesAt(w.entities, m.pos, Some(id));
      match Follow(w, CellReaction(w, m.pos, GetCellAt(w, m.pos), id), id, d, fuel)
      case Diverged => Diverged
      case Settled(w1, d1) => StepOnAll(w1, snapshot, id, d1, fuel)
  }

  /** The handlers of the snapshot entities, in order. */
  function StepOnAll(w: World, snapshot: seq<Entity>, id: nat, d: Direction, fuel: nat): (r: Cascade)
    requires WellShaped(w)
    ensures r.Settled? ==> Frame(w, r.world)
    decreases fuel, 2, |snapshot|
  {
    if |snapshot| == 0 then Settled(w, d)
    else match Follow(w, EntityReaction(w, snapshot[0], id, d), id, d, fuel)
      case Diverged => Diverged
      case Settled(w1, d1) => StepOnAll(w1, snapshot[1..], id, d1, fuel)
  }

  /** Carries out a handler's decision; a bounce or a teleport moves the mover again. */
  function Follow(w: World, reaction: Reaction, id: nat, d: Direction, fuel: nat): (r: Cascade)
    requires WellShaped(w) && (reaction.Stay? ==> Frame(w, reaction.world))
    ensures r.Settled? ==> Frame(w, r.world)
    ensures reaction.Stay? ==> r == Settled(reaction.world, d)
    decreases fuel, 1, 0
  {
    match reaction
    case Stay(w1) => Settled(w1, d)
    case Bounce => Move(w, id, Reverse(d), fuel)
    case Teleport(p) => Move(Relocate(w, id, p), id, d, fuel)
  }

  /**
   * Cell.stepOn for each cell kind, the cell being at `at`. Ground and PushBlockInWater keep
   * the default (nothing); a Wall sends any mover back; the rest react to the player only.
   */
  function CellReaction(w: World, at: Vec, cell: Option<Cell>, id: nat): (r: Reaction)
    requires WellShaped(w) && at.x >= 0 && at.y >= 0
    ensures r.Stay? ==> Frame(w, r.world)
    ensures r.Bounce? <==> cell.Some? && (cell.value.Wall? || (IsPlayerMover(w, id) && LockedFor(cell.value, Lookup(w, id).value.kind.inv)))
    ensures r.Teleport? <==> cell.Some? && cell.value.Teleporter? && cell.value.link.Some? && IsPlayerMover(w, id)
  {
    match cell
    case None => Stay(w)
    case Some(c) =>
      match c
      case Ground => Stay(w)
      case PushBlockInWater => Stay(w)
      case Wall => Bounce
      case Goal => if IsPlayerMover(w, id) then Stay(Raise(w, Won)) else Stay(w)
      case Water => Stay(DeadlyTile(w, id, Flipper))
      case Fire => Stay(DeadlyTile(w, id, FireBoots))
      case ColouredDoor(colour) =>
        (match Lookup(w, id)
         case Some(Entity(_, _, Player(inv))) =>
           var (unlocked, inv') := HasAndConsumeKey(inv, colour);
           if unlocked then Stay(OpenDoor(SetInventory(w, id, inv'), at)) else Bounce
         case _ => Stay(w))
      case TokenDoor(required) =>
        (match Lookup(w, id)
         case Some(Entity(_, _, Player(inv))) =>
           if inv.tokens >= required then Stay(OpenDoor(w, at)) else Bounce
         case _ => Stay(w))
      case Teleporter(link) =>
        if IsPlayerMover(w, id) && link.Some? then Teleport(link.value) else Stay(w)
  }

  /** The door kinds a player with this inventory cannot open. */
  predicate LockedFor(c: Cell, inv: Inventory)
  {
    (c.ColouredDoor? && Key(c.colour) !in Things(inv.items)) || (c.TokenDoor? && inv.tokens < c.required)
  }

  /** DeadlyTile.stepOn: a player without the required boots dies; boots are not used up. */
  function DeadlyTile(w: World, id: nat, needs: BootType): (r: World)
    ensures r == w || r == Raise(w, Lost)
    ensures r == Raise(w, Lost) <==> IsPlayerMover(w, id) && !HasBoots(Lookup(w, id).value.kind.inv.items, needs)
  {
    match Lookup(w, id)
    case Some(Entity(_, _, Player(inv))) => if !HasBoots(inv.items, needs) then Raise(w, Lost) else w
    case _ => w
  }

  /**
   * Entity.stepOn for each entity kind. `e` is the snapshot entry; its current state is
   * used while it is still on the map (a removed entity's handler still runs, as the Java
   * object outlives its removal).
   */
  function EntityReaction(w: World, e: Entity, id: nat, d: Direction): (r: Reaction)
    requires WellShaped(w)
    ensures r.Stay? ==> Frame(w, r.world)
    ensures r.Teleport? == false
    ensures r.Bounce? <==> IsPlayerMover(w, id) && CurrentState(w, e).kind.PushBlock? &&
                           PushTarget(w, CurrentState(w, e).pos, d).Blocked?
  {
    var cur := CurrentState(w, e);
    match cur.kind
    case Player(_) => if IsEnemyMover(w, id) then Stay(Raise(w, Lost)) else Stay(w)
    case Enemy(_, _) => if IsPlayerMover(w, id) then Stay(Raise(w, Lost)) else Stay(w)
    case HintBlock(hint) => if IsPlayerMover(w, id) then Stay(w.(hint := hint)) else Stay(w)
    case Pickup(thing) =>
      (match Lookup(w, id)
       case Some(Entity(_, _, Player(inv))) =>
         Stay(RemoveEntity(SetInventory(w, id, Collect(inv, cur.pos, thing)), e.id))
       case _ => Stay(w))
    case PushBlock =>
      if !IsPlayerMover(w, id) then Stay(w)
      else match PushTarget(w, cur.pos, d)
        case Slide(t) => Stay(Relocate(w, e.id, t))
        case Sink(t) => Stay(RemoveEntity(SetCellAt(w, t, PushBlockInWater), e.id))
        case Blocked => Bounce
  }

  /** The snapshot entry as it is now, or as it was when it has left the map. */
  function CurrentState(w: World, e: Entity): (r: Entity)
    ensures r == e || Lookup(w, e.id) == Some(r)
  {
    match Lookup(w, e.id) case Some(c) => c case None => e
  }

  /**
   * Map.respawnPlayer up to the step-ons: the old player (if any) leaves the list and a new
   * one, with the next id, a copy of the start inventory and the spawn point, is appended.
   */
  function SpawnPlayer(w: World): (r: World)
    ensures r.player == Some(w.nextId) && r.nextId == w.nextId + 1
    ensures |r.entities| >= 1 && r.entities[|r.entities| - 1] == Entity(w.nextId, w.spawn, Player(w.startInv))
    ensures forall e | e in r.entities[..|r.entities| - 1] :: e in w.entities
    ensures w.player.Some? && Lookup(w, w.player.value).Some? ==> |r.entities| == |w.entities|
    ensures FreshIds(w) ==> FreshIds(r) && Lookup(r, w.nextId) == Some(Entity(w.nextId, w.spawn, Player(w.startInv)))
    ensures r.grid == w.grid && r.spawn == w.spawn && r.startInv == w.startInv && r.signals == w.signals
  {
    var w1 := if w.player.Some? then RemoveEntity(w, w.player.value) else w;
    var p := Entity(w.nextId, w.spawn, Player(w.startInv));
    var r := w1.(entities := w1.entities + [p], player := Some(w.nextId), nextId := w.nextId + 1);
    assert r.entities[..|r.entities| - 1] == w1.entities;
    AppendFresh(w1.entities, p);
    r
  }

  /** An entity whose id is above every id on a list is found at the end once appended. */
  lemma {:induction false} AppendFresh(es: seq<Entity>, e: Entity)
    ensures (forall x | x in es :: x.id < e.id) ==> FindEntity(es + [e], e.id) == Some(|es|)
  {
    if |es| > 0 && forall x | x in es :: x.id < e.id {
      assert (es + [e])[1..] == es[1..] + [e];
      AppendFresh(es[1..], e);
    }
  }

  /** Map.respawnPlayer: spawn the new player, then fire the step-ons there with (0,0). */
  function Respawn(w: World, fuel: nat): (r: Cascade)
    requires WellShaped(w) && FreshIds(w) && w.spawn.x >= 0 && w.spawn.y >= 0
    ensures r.Settled? ==> WellShaped(r.world) && r.world.player == Some(w.nextId) && r.world.spawn == w.spawn
  {
    TriggerStepOns(SpawnPlayer(w), w.nextId, DirNone, fuel)
  }
}
