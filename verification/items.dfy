/** Collectables (keys, boots, tokens) and the player's Inventory. */
module Items {
  import opened Base
  import opened Geometry
  import opened Colours
  import opened JavaText

  /** What a Collectable is: a coloured key, a pair of boots, or some tokens. */
  datatype Collectable = Key(colour: Colour) | Boot(boot: BootType) | Token(amount: int)

  /** A collected item keeps the grid coordinate it was picked up from (saved with it). */
  datatype Item = Item(pos: Vec, thing: Collectable)

  datatype Inventory = Inventory(items: seq<Item>, tokens: int)

  /** new Inventory(): no items, no tokens. */
  const EmptyInventory: Inventory := Inventory([], 0)

  /** The collectables held, in inventory order. */
  function Things(items: seq<Item>): (r: seq<Collectable>)
    ensures |r| == |items|
    ensures forall i | 0 <= i < |items| :: r[i] == items[i].thing
  {
    seq(|items|, i requires 0 <= i < |items| => items[i].thing)
  }

  /** Inventory.hasBoots: a scan of the items for boots of the given type. */
  function HasBoots(items: seq<Item>, t: BootType): (r: bool)
    ensures r <==> Boot(t) in Things(items)
  {
    if |items| == 0 then false
    else if items[0].thing == Boot(t) then true
    else HasBoots(items[1..], t)
  }

  /** The position of the first key of the given colour, if any. */
  function FirstKey(items: seq<Item>, c: Colour): (r: Option<nat>)
    ensures r.Some? ==> r.value < |items| && items[r.value].thing == Key(c)
    ensures r.Some? ==> forall j | 0 <= j < r.value :: items[j].thing != Key(c)
    ensures r.None? <==> Key(c) !in Things(items)
  {
    if |items| == 0 then None
    else if items[0].thing == Key(c) then Some(0)
    else match FirstKey(items[1..], c)
      case None => None
      case Some(i) => Some(i + 1)
  }

  /**
   * Inventory.hasAndConsumeKey: if a key of this colour is held, the first one is removed
   * and the answer is true; otherwise nothing changes.
   */
  function HasAndConsumeKey(inv: Inventory, c: Colour): (r: (bool, Inventory))
    ensures r.0 <==> Key(c) in Things(inv.items)
    ensures r.1.tokens == inv.tokens
    ensures !r.0 ==> r.1 == inv
    ensures r.0 ==> multiset(Things(r.1.items)) == multiset(Things(inv.items)) - multiset{Key(c)}
    ensures r.0 ==> exists i | 0 <= i < |inv.items| ::
                      inv.items[i].thing == Key(c) &&
                      (forall j | 0 <= j < i :: inv.items[j].thing != Key(c)) &&
                      r.1.items == inv.items[..i] + inv.items[i + 1..]
  {
    match FirstKey(inv.items, c)
    case None => (false, inv)
    case Some(i) =>
      RemoveAtThings(inv.items, i);
      (true, inv.(items := inv.items[..i] + inv.items[i + 1..]))
  }

  /** Removing one item removes exactly its collectable from the multiset of things held. */
  lemma RemoveAtThings(items: seq<Item>, i: nat)
    requires i < |items|
    ensures multiset(Things(items[..i] + items[i + 1..])) == multiset(Things(items)) - multiset{items[i].thing}
  {
    var rest := items[..i] + items[i + 1..];
    assert Things(items) == Things(items[..i]) + [items[i].thing] + Things(items[i + 1..]);
    assert Things(rest) == Things(items[..i]) + Things(items[i + 1..]);
  }

  /** Inventory.addItem: appends anything but a Token (duplicates allowed); Tokens are dropped. */
  function AddItem(inv: Inventory, item: Item): (r: Inventory)
    ensures r.tokens == inv.tokens
    ensures item.thing.Token? ==> r == inv
    ensures !item.thing.Token? ==> r.items == inv.items + [item]
    ensures multiset(Things(r.items)) ==
            multiset(Things(inv.items)) + (if item.thing.Token? then multiset{} else multiset{item.thing})
  {
    if item.thing.Token? then inv
    else
      assert Things(inv.items + [item]) == Things(inv.items) + [item.thing];
      inv.(items := inv.items + [item])
  }

  /** Inventory.addTokens: `numTokens += amount` on a Java int, which wraps past the largest int. */
  function AddTokens(inv: Inventory, amount: int): (r: Inventory)
    ensures r.items == inv.items && IsInt32(r.tokens) && (r.tokens - (inv.tokens + amount)) % 0x1_0000_0000 == 0
    ensures IsInt32(inv.tokens + amount) ==> r.tokens == inv.tokens + amount
  {
    inv.(tokens := Wrap32(inv.tokens + amount))
  }

  /** Inventory.setNumTokens. */
  function SetNumTokens(inv: Inventory, n: int): (r: Inventory)
    ensures r.items == inv.items && r.tokens == n
  {
    inv.(tokens := n)
  }

  /**
   * Collectable.collect for each kind: a Key or Boot is added as an item remembered at the
   * position it lay on; a Token adds its amount to the count and is not kept as an item.
   */
  function Collect(inv: Inventory, at: Vec, thing: Collectable): (r: Inventory)
    ensures thing.Token? ==> r.items == inv.items && r == AddTokens(inv, thing.amount)
    ensures !thing.Token? ==> r.tokens == inv.tokens && r.items == inv.items + [Item(at, thing)]
  {
    match thing
    case Token(n) => AddTokens(inv, n)
    case _ => AddItem(inv, Item(at, thing))
  }

  /** Collecting boots makes hasBoots true for their type and leaves other types unchanged. */
  lemma CollectBoots(inv: Inventory, at: Vec, t: BootType, u: BootType)
    ensures HasBoots(Collect(inv, at, Boot(t)).items, u) <==> (u == t || HasBoots(inv.items, u))
  {
    assert Things(inv.items + [Item(at, Boot(t))]) == Things(inv.items) + [Boot(t)];
  }

  /** A collected key can then be consumed by a door of its colour. */
  lemma CollectThenConsume(inv: Inventory, at: Vec, c: Colour)
    ensures HasAndConsumeKey(Collect(inv, at, Key(c)), c).0
  {
    assert Things(inv.items + [Item(at, Key(c))]) == Things(inv.items) + [Key(c)];
  }
}
