/**
 * What a single move does in the situations the step-on handlers were written for: doors,
 * teleporters, push blocks, deadly tiles, collectables, hint blocks, goals and enemies.
 */
module InteractionFacts {
  import opened Base
  import opened Geometry
  import opened Colours
  import opened Items
  import opened World
  import opened Interaction

  // ---- bookkeeping about relocating one entity -------------------------------------------

  lemma {:induction false} FindSameIds(es: seq<Entity>, es': seq<Entity>, x: nat)
    requires |es| == |es'| && forall k | 0 <= k < |es| :: es[k].id == es'[k].id
    ensures FindEntity(es, x) == FindEntity(es', x)
  {
    if |es| > 0 {
      FindSameIds(es[1..], es'[1..], x);
    }
  }

  lemma {:induction false} EntitiesAtUpdateIgnored(es: seq<Entity>, i: nat, e: Entity, q: Vec)
    requires i < |es| && es[i].id == e.id
    ensures EntitiesAt(es[i := e], q, Some(e.id)) == EntitiesAt(es, q, Some(e.id))
  {
    if i > 0 {
      assert es[i := e][1..] == es[1..][i - 1 := e];
      EntitiesAtUpdateIgnored(es[1..], i - 1, e, q);
    }
  }

  lemma {:induction false} EntitiesAtUpdateElsewhere(es: seq<Entity>, i: nat, e: Entity, q: Vec)
    requires i < |es| && es[i].pos != q && e.pos != q
    ensures EntitiesAt(es[i := e], q, None) == EntitiesAt(es, q, None)
  {
    if i > 0 {
      assert es[i := e][1..] == es[1..][i - 1 := e];
      EntitiesAtUpdateElsewhere(es[1..], i - 1, e, q);
    }
  }

  /** Relocating the entity `id` leaves every snapshot that ignores it unchanged. */
  lemma RelocateKeepsSnapshot(w: World, id: nat, p: Vec, q: Vec)
    requires Lookup(w, id).Some?
    ensures EntitiesAt(Relocate(w, id, p).entities, q, Some(id)) == EntitiesAt(w.entities, q, Some(id))
  {
    var i := FindEntity(w.entities, id).value;
    EntitiesAtUpdateIgnored(w.entities, i, w.entities[i].(pos := p), q);
  }

  /** Relocating the entity `id` is invisible to every other id. */
  lemma RelocateKeepsOthers(w: World, id: nat, p: Vec, x: nat)
    requires Lookup(w, id).Some? && x != id
    ensures Lookup(Relocate(w, id, p), x) == Lookup(w, x)
  {
    var i := FindEntity(w.entities, id).value;
    FindSameIds(w.entities, w.entities[i := w.entities[i].(pos := p)], x);
  }

  /** Two relocations of the same entity: the second overwrites the first. */
  lemma RelocateTwice(w: World, id: nat, p: Vec, p2: Vec)
    requires Lookup(w, id).Some?
    ensures Relocate(Relocate(w, id, p), id, p2) == Relocate(w, id, p2)
  {
    var i := FindEntity(w.entities, id).value;
    var m := w.entities[i];
    var es' := w.entities[i := m.(pos := p)];
    FindSameIds(w.entities, es', id);
    assert es'[i := m.(pos := p2)] == w.entities[i := m.(pos := p2)];
  }

  /** Relocating an entity to where it stands changes nothing. */
  lemma RelocateInPlace(w: World, id: nat)
    requires Lookup(w, id).Some?
    ensures Relocate(w, id, Lookup(w, id).value.pos) == w
  {
    var i := FindEntity(w.entities, id).value;
    assert w.entities[i := w.entities[i]] == w.entities;
  }

  /** Away from the old and the new position, nobody sees a relocation. */
  lemma RelocateElsewhere(w: World, id: nat, p: Vec, q: Vec)
    requires Lookup(w, id).Some? && q != p && q != Lookup(w, id).value.pos
    ensures EntitiesAt(Relocate(w, id, p).entities, q, None) == EntitiesAt(w.entities, q, None)
  {
    var i := FindEntity(w.entities, id).value;
    EntitiesAtUpdateElsewhere(w.entities, i, w.entities[i].(pos := p), q);
  }

  /** Changing the player's inventory does not change who stands where. */
  lemma SetInventoryFacts(w: World, id: nat, inv: Inventory)
    requires IsPlayerMover(w, id)
    ensures forall q :: EntitiesAt(SetInventory(w, id, inv).entities, q, Some(id)) == EntitiesAt(w.entities, q, Some(id))
    ensures forall x | x != id :: Lookup(SetInventory(w, id, inv), x) == Lookup(w, x)
  {
    var i := FindEntity(w.entities, id).value;
    var m := w.entities[i];
    var es' := w.entities[i := m.(kind := Player(inv))];
    assert SetInventory(w, id, inv).entities == es';
    forall q ensures EntitiesAt(es', q, Some(id)) == EntitiesAt(w.entities, q, Some(id)) {
      EntitiesAtUpdateIgnored(w.entities, i, m.(kind := Player(inv)), q);
    }
    forall x | x != id ensures Lookup(SetInventory(w, id, inv), x) == Lookup(w, x) {
      FindSameIds(w.entities, es', x);
    }
  }

  // ---- enemies ---------------------------------------------------------------------------

  /** The signals added after `before` are all losses. */
  predicate OnlyLosses(before: seq<Signal>, after: seq<Signal>)
  {
    before <= after && forall k | |before| <= k < |after| :: after[k] == Lost
  }

  /**
   * With an enemy as the mover, no entity handler does anything but signal a loss (only the
   * player reacts to enemies), so the snapshot loop never moves anyone.
   */
  lemma {:induction false} EnemyStepOnAll(w: World, snapshot: seq<Entity>, id: nat, d: Direction, fuel: nat)
    requires WellShaped(w) && IsEnemyMover(w, id)
    ensures EnemyOutcome(w, w, d, StepOnAll(w, snapshot, id, d, fuel))
    decreases |snapshot|
  {
    if |snapshot| > 0 {
      var reaction := EntityReaction(w, snapshot[0], id, d);
      assert reaction.Stay? && reaction.world == w.(signals := reaction.world.signals);
      assert OnlyLosses(w.signals, reaction.world.signals);
      EnemyStepOnAll(reaction.world, snapshot[1..], id, d, fuel);
    }
  }

  /** The move settled in `w1` with the same direction, only losses signalled on the way. */
  predicate EnemyOutcome(w: World, w1: World, d: Direction, r: Cascade)
  {
    r.Settled? && r.dir == d && OnlyLosses(w.signals, r.world.signals) && r.world == w1.(signals := r.world.signals)
  }

  /** On a square whose cell does nothing to it, an enemy's step-ons only signal losses. */
  lemma EnemyTrigger(w: World, id: nat, d: Direction, fuel: nat)
    requires WellShaped(w) && IsEnemyMover(w, id) && StandsOnGrid(w, id)
    requires var p := Lookup(w, id).value.pos; GetCellAt(w, p).None? || IsGroundLike(GetCellAt(w, p).value)
    ensures EnemyOutcome(w, w, d, TriggerStepOns(w, id, d, fuel))
  {
    var p := Lookup(w, id).value.pos;
    assert CellReaction(w, p, GetCellAt(w, p), id) == Stay(w);
    TriggerQuietCell(w, id, d, fuel);
    EnemyStepOnAll(w, EntitiesAt(w.entities, p, Some(id)), id, d, fuel);
  }

  /** An enemy that can step ends up one square on, with nothing changed but added losses. */
  lemma EnemyAdvances(w: World, id: nat, d: Direction, fuel: nat)
    requires WellShaped(w) && IsEnemyMover(w, id) && fuel >= 1 && CanMove(w, Lookup(w, id).value, d)
    ensures EnemyOutcome(w, Relocate(w, id, Plus(Lookup(w, id).value.pos, d)), d, Move(w, id, d, fuel))
  {
    var m := Lookup(w, id).value;
    var dest := Plus(m.pos, d);
    var w1 := Relocate(w, id, dest);
    MoveSteps(w, id, d, fuel);
    assert Lookup(w1, id) == Some(m.(pos := dest)) && w1.grid == w.grid && w1.signals == w.signals;
    EnemyTrigger(w1, id, d, fuel - 1);
  }

  /**
   * An enemy's move never cascades: it either stays put or steps one square, and the only
   * other effect is a loss signal for each player it lands on. One unit of fuel suffices.
   */
  lemma EnemyMoveIsolated(w: World, id: nat, d: Direction, fuel: nat)
    requires WellShaped(w) && IsEnemyMover(w, id) && fuel >= 1
    ensures var r := Move(w, id, d, fuel);
            var m := Lookup(w, id).value;
            r.Settled? && r.dir == d && OnlyLosses(w.signals, r.world.signals) &&
            (CanMove(w, m, d) ==> r.world == Relocate(w, id, Plus(m.pos, d)).(signals := r.world.signals)) &&
            (!CanMove(w, m, d) ==> r.world == w)
  {
    if CanMove(w, Lookup(w, id).value, d) {
      EnemyAdvances(w, id, d, fuel);
    }
  }

  // ---- unfolding one step of the cascade -------------------------------------------------

  /** A move that is allowed steps the mover and fires the step-ons on the new square. */
  lemma MoveSteps(w: World, id: nat, d: Direction, fuel: nat)
    requires WellShaped(w) && Lookup(w, id).Some? && fuel >= 1
    requires CanWalkOn(w, Lookup(w, id).value, Plus(Lookup(w, id).value.pos, d))
    ensures Move(w, id, d, fuel) == TriggerStepOns(Relocate(w, id, Plus(Lookup(w, id).value.pos, d)), id, d, fuel - 1)
  {
  }

  /** When the cell under the mover does nothing, only the snapshot entities react. */
  lemma TriggerQuietCell(w: World, id: nat, d: Direction, fuel: nat)
    requires WellShaped(w) && StandsOnGrid(w, id) && Lookup(w, id).Some?
    requires var p := Lookup(w, id).value.pos; CellReaction(w, p, GetCellAt(w, p), id) == Stay(w)
    ensures var p := Lookup(w, id).value.pos;
            TriggerStepOns(w, id, d, fuel) == StepOnAll(w, EntitiesAt(w.entities, p, Some(id)), id, d, fuel)
  {
  }

  /** With nobody else on the mover's square only the cell reacts. */
  lemma TriggerAlone(w: World, id: nat, d: Direction, fuel: nat)
    requires WellShaped(w) && StandsOnGrid(w, id) && Lookup(w, id).Some?
    requires EntitiesAt(w.entities, Lookup(w, id).value.pos, Some(id)) == []
    ensures var p := Lookup(w, id).value.pos;
            TriggerStepOns(w, id, d, fuel) == Follow(w, CellReaction(w, p, GetCellAt(w, p), id), id, d, fuel)
  {
    var p := Lookup(w, id).value.pos;
    match Follow(w, CellReaction(w, p, GetCellAt(w, p), id), id, d, fuel)
    case Diverged =>
    case Settled(w1, d1) => assert StepOnAll(w1, [], id, d1, fuel) == Settled(w1, d1);
  }

  /** On a plain square shared with one other entity only that entity reacts. */
  lemma TriggerOne(w: World, id: nat, d: Direction, fuel: nat, other: Entity)
    requires WellShaped(w) && StandsOnGrid(w, id) && Lookup(w, id).Some?
    requires var p := Lookup(w, id).value.pos;
             EntitiesAt(w.entities, p, Some(id)) == [other] &&
             (GetCellAt(w, p).None? || IsGroundLike(GetCellAt(w, p).value))
    ensures TriggerStepOns(w, id, d, fuel) == Follow(w, EntityReaction(w, other, id, d), id, d, fuel)
  {
    var p := Lookup(w, id).value.pos;
    assert CellReaction(w, p, GetCellAt(w, p), id) == Stay(w);
    TriggerQuietCell(w, id, d, fuel);
    assert [other][1..] == [];
    match Follow(w, EntityReaction(w, other, id, d), id, d, fuel)
    case Diverged =>
    case Settled(w1, d1) => assert StepOnAll(w1, [], id, d1, fuel) == Settled(w1, d1);
  }

  // ---- the player ------------------------------------------------------------------------

  /** The player `id` holds `inv`, the square one step in `d` is on the map, and nobody else is on either square. */
  predicate PlayerStep(w: World, id: nat, d: Direction, inv: Inventory)
  {
    WellShaped(w) && Lookup(w, id).Some? && Lookup(w, id).value.kind == Player(inv) &&
    InBounds(w, Plus(Lookup(w, id).value.pos, d)) &&
    EntitiesAt(w.entities, Lookup(w, id).value.pos, Some(id)) == [] &&
    EntitiesAt(w.entities, Plus(Lookup(w, id).value.pos, d), Some(id)) == []
  }

  /** The player's own square is inside the map and plain: ground, a filled hole, or no cell. */
  predicate PlainOrigin(w: World, id: nat)
    requires WellShaped(w) && Lookup(w, id).Some?
  {
    var p := Lookup(w, id).value.pos;
    InBounds(w, p) && (GetCellAt(w, p).None? || IsGroundLike(GetCellAt(w, p).value))
  }

  /** The player walks onto a plain square where exactly one other entity, `other`, stands. */
  predicate StepOntoOne(w: World, id: nat, d: Direction, inv: Inventory, other: Entity)
  {
    WellShaped(w) && Lookup(w, id).Some? && Lookup(w, id).value.kind == Player(inv) &&
    var q := Plus(Lookup(w, id).value.pos, d);
    InBounds(w, q) && (GetCellAt(w, q).None? || IsGroundLike(GetCellAt(w, q).value)) &&
    EntitiesAt(w.entities, q, Some(id)) == [other] && Lookup(w, other.id) == Some(other)
  }

  /** The door kinds the player can open with this inventory. */
  predicate OpensFor(c: Cell, inv: Inventory)
  {
    (c.ColouredDoor? && Key(c.colour) in Things(inv.items)) || (c.TokenDoor? && inv.tokens >= c.required)
  }

  /** Where things stand once the player has stepped onto a free square. */
  lemma StepFacts(w: World, id: nat, d: Direction, inv: Inventory)
    requires PlayerStep(w, id, d, inv)
    requires var c := GetCellAt(w, Plus(Lookup(w, id).value.pos, d)); c.None? || !c.value.Wall?
    ensures var m := Lookup(w, id).value;
            var q := Plus(m.pos, d);
            var w1 := Relocate(w, id, q);
            Lookup(w1, id) == Some(m.(pos := q)) && w1.grid == w.grid &&
            EntitiesAt(w1.entities, q, Some(id)) == [] && CanWalkOn(w, m, q)
  {
    var m := Lookup(w, id).value;
    var q := Plus(m.pos, d);
    RelocateKeepsSnapshot(w, id, q, q);
  }

  /** Where things stand once the player has stepped onto a square shared with `other`. */
  lemma StepOneFacts(w: World, id: nat, d: Direction, inv: Inventory, other: Entity)
    requires StepOntoOne(w, id, d, inv, other)
    ensures var m := Lookup(w, id).value;
            var q := Plus(m.pos, d);
            var w1 := Relocate(w, id, q);
            Lookup(w1, id) == Some(m.(pos := q)) && Lookup(w1, other.id) == Some(other) && other.pos == q &&
            w1.grid == w.grid && EntitiesAt(w1.entities, q, Some(id)) == [other] && CanWalkOn(w, m, q)
    ensures var q := Plus(Lookup(w, id).value.pos, d);
            SharesWith(w, Relocate(w, id, q), id, q, other)
  {
    var m := Lookup(w, id).value;
    var q := Plus(m.pos, d);
    assert other in EntitiesAt(w.entities, q, Some(id));
    RelocateKeepsSnapshot(w, id, q, q);
    RelocateKeepsOthers(w, id, q, other.id);
  }

  /**
   * The first half of every player scenario: the player steps onto a square that is not a
   * wall and where nobody else stands, and what follows is that cell's reaction alone.
   */
  lemma PlayerEnters(w: World, id: nat, d: Direction, inv: Inventory, fuel: nat)
    requires PlayerStep(w, id, d, inv) && fuel >= 1
    requires var c := GetCellAt(w, Plus(Lookup(w, id).value.pos, d)); c.None? || !c.value.Wall?
    ensures var m := Lookup(w, id).value;
            var q := Plus(m.pos, d);
            var w1 := Relocate(w, id, q);
            Lookup(w1, id) == Some(m.(pos := q)) && w1.grid == w.grid &&
            Move(w, id, d, fuel) == Follow(w1, CellReaction(w1, q, GetCellAt(w, q), id), id, d, fuel - 1)
  {
    var m := Lookup(w, id).value;
    var q := Plus(m.pos, d);
    var w1 := Relocate(w, id, q);
    StepFacts(w, id, d, inv);
    MoveSteps(w, id, d, fuel);
    TriggerAlone(w1, id, d, fuel - 1);
  }

  /** The same for a plain square shared with one other entity: only that entity reacts. */
  lemma PlayerEntersOne(w: World, id: nat, d: Direction, inv: Inventory, other: Entity, fuel: nat)
    requires StepOntoOne(w, id, d, inv, other) && fuel >= 1
    ensures var w1 := Relocate(w, id, Plus(Lookup(w, id).value.pos, d));
            Move(w, id, d, fuel) == Follow(w1, EntityReaction(w1, other, id, d), id, d, fuel - 1)
  {
    var q := Plus(Lookup(w, id).value.pos, d);
    StepOneFacts(w, id, d, inv, other);
    EntersOneChain(w, id, d, q, other, fuel);
  }

  /** The step itself, then the one reaction on the square. */
  lemma EntersOneChain(w: World, id: nat, d: Direction, q: Vec, other: Entity, fuel: nat)
    requires WellShaped(w) && Lookup(w, id).Some? && fuel >= 1 && q == Plus(Lookup(w, id).value.pos, d)
    requires CanWalkOn(w, Lookup(w, id).value, q) && SharesWith(w, Relocate(w, id, q), id, q, other)
    ensures Move(w, id, d, fuel) == Follow(Relocate(w, id, q), EntityReaction(Relocate(w, id, q), other, id, d), id, d, fuel - 1)
  {
    MoveSteps(w, id, d, fuel);
    OneReacts(w, Relocate(w, id, q), id, d, q, other, fuel - 1);
  }

  /** The mover, moved from `w` to `w1`, stands at `q` on a plain square shared only with `other`. */
  predicate SharesWith(w: World, w1: World, id: nat, q: Vec, other: Entity)
  {
    WellShaped(w) && w1.grid == w.grid && InBounds(w, q) &&
    Lookup(w1, id).Some? && Lookup(w1, id).value.pos == q &&
    EntitiesAt(w1.entities, q, Some(id)) == [other] &&
    (GetCellAt(w, q).None? || IsGroundLike(GetCellAt(w, q).value))
  }

  /** After the step, with the mover on the square shared with `other`: only `other` reacts. */
  lemma OneReacts(w: World, w1: World, id: nat, d: Direction, q: Vec, other: Entity, fuel: nat)
    requires SharesWith(w, w1, id, q, other)
    ensures TriggerStepOns(w1, id, d, fuel) == Follow(w1, EntityReaction(w1, other, id, d), id, d, fuel)
  {
    assert GetCellAt(w1, q) == GetCellAt(w, q);
    TriggerOne(w1, id, d, fuel, other);
  }

  /** A player that has stepped forward and is sent back lands exactly where it started. */
  lemma BounceBack(w: World, id: nat, d: Direction, fuel: nat)
    requires WellShaped(w) && Lookup(w, id).Some? && Lookup(w, id).value.kind.Player?
    requires PlainOrigin(w, id) && EntitiesAt(w.entities, Lookup(w, id).value.pos, Some(id)) == [] && fuel >= 1
    ensures var m := Lookup(w, id).value;
            Move(Relocate(w, id, Plus(m.pos, d)), id, Reverse(d), fuel) == Settled(w, Reverse(d))
  {
    var m := Lookup(w, id).value;
    var q := Plus(m.pos, d);
    var w1 := Relocate(w, id, q);
    RelocateKeepsSnapshot(w, id, q, m.pos);
    RelocateTwice(w, id, q, m.pos);
    RelocateInPlace(w, id);
    assert Lookup(w1, id) == Some(m.(pos := q));
    assert Plus(q, Reverse(d)) == m.pos;
    assert CanWalkOn(w1, m.(pos := q), m.pos);
    assert Relocate(w1, id, m.pos) == w;
    MoveSteps(w1, id, Reverse(d), fuel);
    TriggerAlone(w, id, Reverse(d), fuel - 1);
    assert CellReaction(w, m.pos, GetCellAt(w, m.pos), id) == Stay(w);
  }

  /** A goal signals a win when the player arrives. */
  lemma GoalWins(w: World, id: nat, d: Direction, inv: Inventory, fuel: nat)
    requires PlayerStep(w, id, d, inv) && fuel >= 1
    requires GetCellAt(w, Plus(Lookup(w, id).value.pos, d)) == Some(Goal)
    ensures Move(w, id, d, fuel) == Settled(Raise(Relocate(w, id, Plus(Lookup(w, id).value.pos, d)), Won), d)
  {
    PlayerEnters(w, id, d, inv, fuel);
  }

  /** Water and fire kill a player without the matching boots and leave one who has them alone. */
  lemma DeadlyTileStep(w: World, id: nat, d: Direction, inv: Inventory, fuel: nat)
    requires PlayerStep(w, id, d, inv) && fuel >= 1
    requires var c := GetCellAt(w, Plus(Lookup(w, id).value.pos, d)); c == Some(Water) || c == Some(Fire)
    ensures var q := Plus(Lookup(w, id).value.pos, d);
            var needs := if GetCellAt(w, q) == Some(Water) then Flipper else FireBoots;
            var w1 := Relocate(w, id, q);
            Move(w, id, d, fuel) == Settled(if HasBoots(inv.items, needs) then w1 else Raise(w1, Lost), d)
  {
    PlayerEnters(w, id, d, inv, fuel);
  }

  /** A door that stays shut sends the player back: the world is exactly as before, no key used. */
  lemma LockedDoorBounces(w: World, id: nat, d: Direction, inv: Inventory, fuel: nat)
    requires PlayerStep(w, id, d, inv) && PlainOrigin(w, id) && fuel >= 2
    requires var q := Plus(Lookup(w, id).value.pos, d);
             GetCellAt(w, q).Some? && LockedFor(GetCellAt(w, q).value, inv)
    ensures Move(w, id, d, fuel) == Settled(w, Reverse(d))
  {
    PlayerEnters(w, id, d, inv, fuel);
    BounceBack(w, id, d, fuel - 1);
  }

  /** An openable door's reaction: take the key if it is a coloured door, then become ground. */
  lemma DoorReaction(w: World, at: Vec, door: Cell, id: nat, m: Entity, inv: Inventory)
    requires WellShaped(w) && at.x >= 0 && at.y >= 0 && Lookup(w, id) == Some(m) && m.kind == Player(inv)
    requires OpensFor(door, inv)
    ensures var inv' := if door.ColouredDoor? then HasAndConsumeKey(inv, door.colour).1 else inv;
            var w' := if door.ColouredDoor? then SetInventory(w, id, inv') else w;
            Lookup(w', id) == Some(m.(kind := Player(inv'))) && w'.grid == w.grid &&
            CellReaction(w, at, Some(door), id) == Stay(OpenDoor(w', at))
  {
    if door.ColouredDoor? {
      assert HasAndConsumeKey(inv, door.colour).0;
    }
  }

  /** Opening the door at `at` changes that one slot, to Ground, and nothing else that can be read. */
  lemma OpenedDoor(w: World, w2: World, at: Vec, player: Entity)
    requires WellShaped(w) && w2.grid == w.grid && at.x >= 0 && at.y >= 0 && InBounds(w, at)
    requires Lookup(w2, player.id) == Some(player)
    ensures GetCellAt(OpenDoor(w2, at), at) == Some(Ground)
    ensures Lookup(OpenDoor(w2, at), player.id) == Some(player)
    ensures forall p: Vec | p.x >= 0 && p.y >= 0 && p != at :: GetCellAt(OpenDoor(w2, at), p) == GetCellAt(w, p)
  {
    forall p: Vec | p.x >= 0 && p.y >= 0 && p != at ensures GetCellAt(OpenDoor(w2, at), p) == GetCellAt(w, p) {
      GetAfterSet(w2, at, Ground, p);
    }
    GetAfterSet(w2, at, Ground, at);
  }

  /**
   * A door the player can open turns into Ground under the player, who stays on it; a
   * coloured door takes exactly the first key of its colour, a token door takes nothing.
   */
  lemma DoorOpens(w: World, id: nat, d: Direction, inv: Inventory, fuel: nat)
    requires PlayerStep(w, id, d, inv) && fuel >= 1
    requires var q := Plus(Lookup(w, id).value.pos, d);
             GetCellAt(w, q).Some? && OpensFor(GetCellAt(w, q).value, inv)
    ensures var q := Plus(Lookup(w, id).value.pos, d);
            var door := GetCellAt(w, q).value;
            var r := Move(w, id, d, fuel);
            var inv' := if door.ColouredDoor? then HasAndConsumeKey(inv, door.colour).1 else inv;
            r.Settled? && r.dir == d && GetCellAt(r.world, q) == Some(Ground) &&
            Lookup(r.world, id) == Some(Entity(id, q, Player(inv'))) &&
            (forall p: Vec | p.x >= 0 && p.y >= 0 && p != q :: GetCellAt(r.world, p) == GetCellAt(w, p))
  {
    var m := Lookup(w, id).value;
    var q := Plus(m.pos, d);
    var door := GetCellAt(w, q).value;
    var w1 := Relocate(w, id, q);
    PlayerEnters(w, id, d, inv, fuel);
    var inv' := if door.ColouredDoor? then HasAndConsumeKey(inv, door.colour).1 else inv;
    var w2 := if door.ColouredDoor? then SetInventory(w1, id, inv') else w1;
    DoorReaction(w1, q, door, id, m.(pos := q), inv);
    OpenedDoor(w, w2, q, Entity(id, q, Player(inv')));
  }

  /** Stepping onto a linked teleporter is the same move made again from its partner. */
  lemma TeleportEnters(w: World, id: nat, d: Direction, inv: Inventory, link: Vec, fuel: nat)
    requires PlayerStep(w, id, d, inv) && fuel >= 1
    requires GetCellAt(w, Plus(Lookup(w, id).value.pos, d)) == Some(Teleporter(Some(link)))
    ensures Move(w, id, d, fuel) == Move(Relocate(w, id, link), id, d, fuel - 1)
  {
    var q := Plus(Lookup(w, id).value.pos, d);
    var w1 := Relocate(w, id, q);
    PlayerEnters(w, id, d, inv, fuel);
    assert CellReaction(w1, q, GetCellAt(w, q), id) == Teleport(link);
    RelocateTwice(w, id, q, link);
  }

  /** From a teleporter's partner the player takes one plain step. */
  lemma TeleportLands(w: World, id: nat, d: Direction, inv: Inventory, link: Vec, fuel: nat)
    requires WellShaped(w) && Lookup(w, id).Some? && Lookup(w, id).value.kind == Player(inv) && fuel >= 1
    requires var t := Plus(link, d);
             InBounds(w, t) && (GetCellAt(w, t).None? || IsGroundLike(GetCellAt(w, t).value)) &&
             EntitiesAt(w.entities, t, Some(id)) == []
    ensures Move(Relocate(w, id, link), id, d, fuel) == Settled(Relocate(w, id, Plus(link, d)), d)
  {
    var m := Lookup(w, id).value;
    var t := Plus(link, d);
    var w2 := Relocate(w, id, link);
    var w3 := Relocate(w2, id, t);
    RelocateTwice(w, id, link, t);
    RelocateKeepsSnapshot(w, id, link, t);
    assert w3 == Relocate(w, id, t);
    assert Lookup(w2, id) == Some(m.(pos := link));
    assert w2.grid == w.grid;
    assert CanWalkOn(w2, m.(pos := link), t);
    MoveSteps(w2, id, d, fuel);
    RelocateKeepsSnapshot(w, id, t, t);
    assert Lookup(w3, id) == Some(m.(pos := t));
    TriggerAlone(w3, id, d, fuel - 1);
    assert CellReaction(w3, t, GetCellAt(w3, t), id) == Stay(w3);
  }

  /**
   * A linked teleporter puts the player on its partner and repeats the move from there; when
   * the square beyond the partner is plain and free the player ends up on it.
   */
  lemma TeleportCarriesOn(w: World, id: nat, d: Direction, inv: Inventory, link: Vec, fuel: nat)
    requires PlayerStep(w, id, d, inv) && fuel >= 2
    requires GetCellAt(w, Plus(Lookup(w, id).value.pos, d)) == Some(Teleporter(Some(link)))
    requires var t := Plus(link, d);
             InBounds(w, t) && (GetCellAt(w, t).None? || IsGroundLike(GetCellAt(w, t).value)) &&
             EntitiesAt(w.entities, t, Some(id)) == []
    ensures Move(w, id, d, fuel) == Settled(Relocate(w, id, Plus(link, d)), d)
  {
    var fromPartner := Move(Relocate(w, id, link), id, d, fuel - 1);
    assert Move(w, id, d, fuel) == fromPartner by {
      TeleportEnters(w, id, d, inv, link, fuel);
    }
    assert fromPartner == Settled(Relocate(w, id, Plus(link, d)), d) by {
      TeleportLands(w, id, d, inv, link, fuel - 1);
    }
  }

  /** When the square beyond the partner is off the map or a wall, the player stays on the partner. */
  lemma TeleportBlocked(w: World, id: nat, d: Direction, inv: Inventory, link: Vec, fuel: nat)
    requires PlayerStep(w, id, d, inv) && fuel >= 1
    requires GetCellAt(w, Plus(Lookup(w, id).value.pos, d)) == Some(Teleporter(Some(link)))
    requires var t := Plus(link, d);
             !InBounds(w, t) || (t.x >= 0 && t.y >= 0 && GetCellAt(w, t) == Some(Wall))
    ensures Move(w, id, d, fuel) == Settled(Relocate(w, id, link), d)
  {
    var m := Lookup(w, id).value;
    var w2 := Relocate(w, id, link);
    TeleportEnters(w, id, d, inv, link, fuel);
    assert Lookup(w2, id) == Some(m.(pos := link));
    assert w2.grid == w.grid;
    var t := Plus(link, d);
    assert !InBounds(w2, t) || (t.x >= 0 && t.y >= 0 && GetCellAt(w2, t) == Some(Wall));
    assert !CanWalkOn(w2, m.(pos := link), t);
  }

  /** A collectable is gathered into the inventory and taken off the map. */
  lemma CollectOnStep(w: World, id: nat, d: Direction, inv: Inventory, item: Entity, fuel: nat)
    requires StepOntoOne(w, id, d, inv, item) && item.kind.Pickup? && fuel >= 1
    ensures var q := Plus(Lookup(w, id).value.pos, d);
            var w1 := SetInventory(Relocate(w, id, q), id, Collect(inv, q, item.kind.thing));
            Move(w, id, d, fuel) == Settled(RemoveEntity(w1, item.id), d)
  {
    StepOneFacts(w, id, d, inv, item);
    PlayerEntersOne(w, id, d, inv, item, fuel);
  }

  /** A hint block shows its hint and stays where it is. */
  lemma HintOnStep(w: World, id: nat, d: Direction, inv: Inventory, block: Entity, fuel: nat)
    requires StepOntoOne(w, id, d, inv, block) && block.kind.HintBlock? && fuel >= 1
    ensures var q := Plus(Lookup(w, id).value.pos, d);
            Move(w, id, d, fuel) == Settled(Relocate(w, id, q).(hint := block.kind.hint), d)
  {
    StepOneFacts(w, id, d, inv, block);
    PlayerEntersOne(w, id, d, inv, block, fuel);
  }

  /** A player walking into an enemy dies. */
  lemma PlayerMeetsEnemy(w: World, id: nat, d: Direction, inv: Inventory, enemy: Entity, fuel: nat)
    requires StepOntoOne(w, id, d, inv, enemy) && enemy.kind.Enemy? && fuel >= 1
    ensures var q := Plus(Lookup(w, id).value.pos, d);
            Move(w, id, d, fuel) == Settled(Raise(Relocate(w, id, q), Lost), d)
  {
    StepOneFacts(w, id, d, inv, enemy);
    PlayerEntersOne(w, id, d, inv, enemy, fuel);
  }

  /** A push block's reaction to the player, from where the block stands now. */
  lemma PushReaction(w: World, block: Entity, id: nat, d: Direction)
    requires WellShaped(w) && IsPlayerMover(w, id) && Lookup(w, block.id) == Some(block) && block.kind.PushBlock?
    ensures EntityReaction(w, block, id, d) ==
            match PushTarget(w, block.pos, d)
            case Slide(t) => Stay(Relocate(w, block.id, t))
            case Sink(t) => Stay(RemoveEntity(SetCellAt(w, t, PushBlockInWater), block.id))
            case Blocked => Bounce
  {
  }

  /** Where a block can go depends only on the grid and on who stands on the target square. */
  lemma PushTargetSame(w: World, w': World, from: Vec, d: Direction)
    requires w'.grid == w.grid
    requires EntitiesAt(w'.entities, Plus(from, d), None) == EntitiesAt(w.entities, Plus(from, d), None)
    ensures PushTarget(w', from, d) == PushTarget(w, from, d)
  {
  }

  /** The player moving onto the block's square does not change where the block can go. */
  lemma PushUnaffected(w: World, id: nat, d: Direction, inv: Inventory, block: Entity)
    requires StepOntoOne(w, id, d, inv, block) && d != DirNone
    ensures var q := Plus(Lookup(w, id).value.pos, d);
            PushTarget(Relocate(w, id, q), q, d) == PushTarget(w, q, d)
  {
    var m := Lookup(w, id).value;
    var q := Plus(m.pos, d);
    var t := Plus(q, d);
    assert t != q && t != m.pos;
    RelocateElsewhere(w, id, q, t);
    PushTargetSame(w, Relocate(w, id, q), q, d);
  }

  /** The player steps onto the block's square and only the block's reaction follows. */
  lemma PushStep(w: World, id: nat, d: Direction, inv: Inventory, block: Entity, fuel: nat)
    requires StepOntoOne(w, id, d, inv, block) && block.kind.PushBlock? && d != DirNone && fuel >= 1
    ensures var q := Plus(Lookup(w, id).value.pos, d);
            var w1 := Relocate(w, id, q);
            Lookup(w1, block.id) == Some(block) && IsPlayerMover(w1, id) && WellShaped(w1) &&
            PushTarget(w1, q, d) == PushTarget(w, q, d) && block.pos == q &&
            Move(w, id, d, fuel) == Follow(w1, EntityReaction(w1, block, id, d), id, d, fuel - 1)
  {
    StepOneFacts(w, id, d, inv, block);
    PlayerEntersOne(w, id, d, inv, block, fuel);
    PushUnaffected(w, id, d, inv, block);
  }

  /** Onto free ground the block slides one square and the player takes its place. */
  lemma PushSlides(w: World, id: nat, d: Direction, inv: Inventory, block: Entity, t: Vec, fuel: nat)
    requires StepOntoOne(w, id, d, inv, block) && block.kind.PushBlock? && d != DirNone && fuel >= 1
    requires PushTarget(w, Plus(Lookup(w, id).value.pos, d), d) == Slide(t)
    ensures var w1 := Relocate(w, id, Plus(Lookup(w, id).value.pos, d));
            Move(w, id, d, fuel) == Settled(Relocate(w1, block.id, t), d)
  {
    var w1 := Relocate(w, id, Plus(Lookup(w, id).value.pos, d));
    PushStep(w, id, d, inv, block, fuel);
    PushReaction(w1, block, id, d);
  }

  /** Into free water the block fills the hole and disappears. */
  lemma PushSinks(w: World, id: nat, d: Direction, inv: Inventory, block: Entity, t: Vec, fuel: nat)
    requires StepOntoOne(w, id, d, inv, block) && block.kind.PushBlock? && d != DirNone && fuel >= 1
    requires PushTarget(w, Plus(Lookup(w, id).value.pos, d), d) == Sink(t)
    ensures var w1 := Relocate(w, id, Plus(Lookup(w, id).value.pos, d));
            Move(w, id, d, fuel) == Settled(RemoveEntity(SetCellAt(w1, t, PushBlockInWater), block.id), d)
  {
    var w1 := Relocate(w, id, Plus(Lookup(w, id).value.pos, d));
    PushStep(w, id, d, inv, block, fuel);
    PushReaction(w1, block, id, d);
  }

  /** A block that cannot move sends the player back, and nothing changes. */
  lemma PushBlockedBounces(w: World, id: nat, d: Direction, inv: Inventory, block: Entity, fuel: nat)
    requires StepOntoOne(w, id, d, inv, block) && block.kind.PushBlock? && d != DirNone && fuel >= 2
    requires PlainOrigin(w, id) && EntitiesAt(w.entities, Lookup(w, id).value.pos, Some(id)) == []
    requires PushTarget(w, Plus(Lookup(w, id).value.pos, d), d).Blocked?
    ensures Move(w, id, d, fuel) == Settled(w, Reverse(d))
  {
    var w1 := Relocate(w, id, Plus(Lookup(w, id).value.pos, d));
    PushStep(w, id, d, inv, block, fuel);
    PushReaction(w1, block, id, d);
    BounceBack(w, id, d, fuel - 1);
  }

  /**
   * Pushing a block: onto free ground it slides one square and the player takes its place;
   * into free water it fills the hole and disappears; otherwise the player is sent back and
   * nothing changes.
   */
  lemma PushOnStep(w: World, id: nat, d: Direction, inv: Inventory, block: Entity, fuel: nat)
    requires StepOntoOne(w, id, d, inv, block) && block.kind.PushBlock? && d != DirNone && fuel >= 2
    requires PlainOrigin(w, id) && EntitiesAt(w.entities, Lookup(w, id).value.pos, Some(id)) == []
    ensures var q := Plus(Lookup(w, id).value.pos, d);
            var w1 := Relocate(w, id, q);
            var r := Move(w, id, d, fuel);
            match PushTarget(w, q, d)
            case Slide(t) => r == Settled(Relocate(w1, block.id, t), d)
            case Sink(t) => r == Settled(RemoveEntity(SetCellAt(w1, t, PushBlockInWater), block.id), d)
            case Blocked => r == Settled(w, Reverse(d))
  {
    var q := Plus(Lookup(w, id).value.pos, d);
    match PushTarget(w, q, d)
    case Slide(t) => PushSlides(w, id, d, inv, block, t, fuel);
    case Sink(t) => PushSinks(w, id, d, inv, block, t, fuel);
    case Blocked => PushBlockedBounces(w, id, d, inv, block, fuel);
  }
}
