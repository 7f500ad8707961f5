/**
 * Pickups: what each kind of item does to the hero when collected, the
 * factory from type names, and the manager's collection sweep.
 */
module Items {
  import opened Rects
  import opened Settings
  import opened Players

  /** The six item classes with the parameters that change what a pickup does. */
  datatype ItemKind =
    | Food(feast: bool)
    | MagicVial(potion: bool)
    | HeartContainer
    | MagicBottle
    | Coin(value: int)
    | Key(keyId: string)

  datatype Item = Item(rect: Rect, kind: ItemKind)

  /** `item_type`: the name an item carries. */
  function ItemName(k: ItemKind): string
  {
    match k
    case Food(feast) => if feast then "feast" else "food"
    case MagicVial(potion) => if potion then "magic_potion" else "magic_vial"
    case HeartContainer => "heart_container"
    case MagicBottle => "magic_bottle"
    case Coin(_) => "coin"
    case Key(_) => "key"
  }

  /** Every sprite is 10 art pixels square, the key 12, at two screen pixels per art pixel. */
  function ItemSize(k: ItemKind): nat
  {
    if k.Key? then 12 * PixelScale else 10 * PixelScale
  }

  /** An item placed with its top-left corner at `(x, y)`; bobbing is not modelled. */
  function NewItem(k: ItemKind, x: int, y: int): (it: Item)
    ensures it.kind == k && it.rect.x == x && it.rect.y == y && it.rect.w == it.rect.h == ItemSize(k)
  {
    Item(Rect(x, y, ItemSize(k), ItemSize(k)), k)
  }

  /**
   * What `collect` does to the hero's stats: food heals 1 (a feast 2),
   * a vial restores 1 magic (a potion 2), a heart container and a magic
   * bottle raise a maximum by 1, a coin scores its value and a key 100.
   */
  function CollectEffect(s: Stats, k: ItemKind): Stats
  {
    match k
    case Food(feast) => Healed(s, if feast then FeastHeal else FoodHeal)
    case MagicVial(potion) => MagicRestored(s, if potion then PotionRestore else VialRestore)
    case HeartContainer => MaxHealthRaised(s, HeartContainerIncrease)
    case MagicBottle => MaxMagicRaised(s, MagicBottleIncrease)
    case Coin(value) => s.(score := s.score + value)
    case Key(_) => s.(score := s.score + KeyValue)
  }

  /** Each pickup touches exactly one stat (two for the containers), by the amount of its kind. */
  lemma CollectEffectFacts(s: Stats, k: ItemKind)
    ensures var r := CollectEffect(s, k);
      (k.Food? ==> r == s.(health := r.health) &&
                   var heal := if k.feast then 2 else 1;
                   r.health == (if s.health + heal < s.maxHealth then s.health + heal else s.maxHealth)) &&
      (k.MagicVial? ==> r == s.(magic := r.magic) &&
                        var gain := if k.potion then 2 else 1;
                        r.magic == (if s.magic + gain < s.maxMagic then s.magic + gain else s.maxMagic)) &&
      (k.HeartContainer? ==> r == s.(health := s.health + 1, maxHealth := s.maxHealth + 1)) &&
      (k.MagicBottle? ==> r == s.(magic := s.magic + 1, maxMagic := s.maxMagic + 1)) &&
      (k.Coin? ==> r == s.(score := s.score + k.value)) &&
      (k.Key? ==> r == s.(score := s.score + 100))
  {
  }

  /** A pickup never lifts a current value above its maximum. */
  lemma CollectKeepsCaps(s: Stats, k: ItemKind)
    requires Capped(s)
    ensures Capped(CollectEffect(s, k))
  {
    match k {
      case Food(feast) => CapsPreserved(s, if feast then FeastHeal else FoodHeal);
      case MagicVial(potion) => CapsPreserved(s, if potion then PotionRestore else VialRestore);
      case HeartContainer => CapsPreserved(s, HeartContainerIncrease);
      case MagicBottle => CapsPreserved(s, MagicBottleIncrease);
      case Coin(value) => CapsPreserved(s, value);
      case Key(_) => CapsPreserved(s, KeyValue);
    }
  }

  /** `create_item`: the eight type names, anything else a plain coin. */
  function CreateItem(name: string, x: int, y: int): Item
  {
    var k :=
      if name == "food" then Food(false)
      else if name == "feast" then Food(true)
      else if name == "magic_vial" then MagicVial(false)
      else if name == "magic_potion" then MagicVial(true)
      else if name == "heart_container" then HeartContainer
      else if name == "magic_bottle" then MagicBottle
      else if name == "coin" then Coin(CoinValue)
      else if name == "key" then Key("default")
      else Coin(CoinValue);
    NewItem(k, x, y)
  }

  /** The kinds `create_item` can produce: a coin of 10 and the default key, beside the fixed kinds. */
  predicate Creatable(k: ItemKind)
  {
    match k
    case Coin(value) => value == CoinValue
    case Key(keyId) => keyId == "default"
    case _ => true
  }

  /** Creating by an item's own name gives back that item; an unknown name gives a 10-point coin. */
  lemma CreateItemRoundTrip(k: ItemKind, name: string, x: int, y: int)
    ensures Creatable(k) ==> CreateItem(ItemName(k), x, y) == NewItem(k, x, y)
    ensures Creatable(CreateItem(name, x, y).kind)
    ensures CreateItem(name, x, y).rect.x == x && CreateItem(name, x, y).rect.y == y
    ensures name !in {"food", "feast", "magic_vial", "magic_potion", "heart_container", "magic_bottle", "coin", "key"} ==>
      CreateItem(name, x, y) == NewItem(Coin(10), x, y)
  {
  }

  // ------------------------------------------------------- collection sweep

  /** The items, in group order, that overlap the hero's box. */
  function Collected(items: seq<Item>, r: Rect): seq<Item>
  {
    if |items| == 0 then []
    else Collected(items[..|items| - 1], r) + (if Collide(r, items[|items| - 1].rect) then [items[|items| - 1]] else [])
  }

  /** The items, in group order, that the hero does not touch. */
  function Remaining(items: seq<Item>, r: Rect): seq<Item>
  {
    if |items| == 0 then []
    else Remaining(items[..|items| - 1], r) + (if Collide(r, items[|items| - 1].rect) then [] else [items[|items| - 1]])
  }

  /** The stats after collecting `items` in order. */
  function CollectAll(s: Stats, items: seq<Item>): Stats
  {
    if |items| == 0 then s else CollectEffect(CollectAll(s, items[..|items| - 1]), items[|items| - 1].kind)
  }

  lemma CollectAllSnoc(s: Stats, items: seq<Item>, it: Item)
    ensures CollectAll(s, items + [it]) == CollectEffect(CollectAll(s, items), it.kind)
  {
    assert (items + [it])[..|items|] == items;
  }

  /**
   * The sweep splits the group exactly: every collected item overlaps the
   * hero, no remaining one does, and together they are the whole group.
   */
  lemma SweepPartitions(items: seq<Item>, r: Rect)
    ensures forall i :: 0 <= i < |Collected(items, r)| ==> Collide(r, Collected(items, r)[i].rect)
    ensures forall i :: 0 <= i < |Remaining(items, r)| ==> !Collide(r, Remaining(items, r)[i].rect)
    ensures multiset(Collected(items, r)) + multiset(Remaining(items, r)) == multiset(items)
  {
    CollectedOverlap(items, r);
    RemainingApart(items, r);
    SweepMultiset(items, r);
  }

  lemma {:induction false} CollectedOverlap(items: seq<Item>, r: Rect)
    ensures forall i :: 0 <= i < |Collected(items, r)| ==> Collide(r, Collected(items, r)[i].rect)
  {
    if |items| > 0 {
      CollectedOverlap(items[..|items| - 1], r);
    }
  }

  lemma {:induction false} RemainingApart(items: seq<Item>, r: Rect)
    ensures forall i :: 0 <= i < |Remaining(items, r)| ==> !Collide(r, Remaining(items, r)[i].rect)
  {
    if |items| > 0 {
      RemainingApart(items[..|items| - 1], r);
    }
  }

  lemma {:induction false} SweepMultiset(items: seq<Item>, r: Rect)
    ensures multiset(Collected(items, r)) + multiset(Remaining(items, r)) == multiset(items)
  {
    if |items| > 0 {
      SweepMultiset(items[..|items| - 1], r);
      SweepSnoc(items, r);
    }
  }

  /** The last item goes to exactly one side of the sweep. */
  lemma SweepSnoc(items: seq<Item>, r: Rect)
    requires |items| > 0
    ensures var init, last := items[..|items| - 1], items[|items| - 1];
      multiset(items) == multiset(init) + multiset{last} &&
      multiset(Collected(items, r)) + multiset(Remaining(items, r)) ==
        multiset(Collected(init, r)) + multiset(Remaining(init, r)) + multiset{last}
  {
    var init, last := items[..|items| - 1], items[|items| - 1];
    assert items == init + [last];
  }

  /** An item is collected exactly when it overlaps the hero; the ones left behind keep their order. */
  lemma {:induction false} CollectedExactly(items: seq<Item>, r: Rect, it: Item)
    ensures it in Collected(items, r) <==> it in items && Collide(r, it.rect)
    ensures it in Remaining(items, r) <==> it in items && !Collide(r, it.rect)
  {
    if |items| > 0 {
      var init := items[..|items| - 1];
      CollectedExactly(init, r, it);
      assert items == init + [items[|items| - 1]];
    }
  }

  /** Collecting any sequence of items keeps current values within their maxima. */
  lemma {:induction false} CollectAllKeepsCaps(s: Stats, items: seq<Item>)
    requires Capped(s)
    ensures Capped(CollectAll(s, items))
  {
    if |items| > 0 {
      CollectAllKeepsCaps(s, items[..|items| - 1]);
      CollectKeepsCaps(CollectAll(s, items[..|items| - 1]), items[|items| - 1].kind);
    }
  }

  /** Coins and keys only ever add to the score; no pickup takes any away unless its own value is negative. */
  lemma {:induction false} ScoreGrows(s: Stats, items: seq<Item>)
    requires forall i :: 0 <= i < |items| ==> !(items[i].kind.Coin? && items[i].kind.value < 0)
    ensures CollectAll(s, items).score >= s.score
  {
    if |items| > 0 {
      ScoreGrows(s, items[..|items| - 1]);
    }
  }

  /** The items of one level. */
  class ItemManager {
    var items: seq<Item>

    constructor ()
      ensures items == []
    {
      items := [];
    }

    /** `add_item`. */
    method AddItem(it: Item)
      modifies this`items
      ensures items == old(items) + [it]
    {
      items := items + [it];
    }

    method SpawnFood(x: int, y: int, feast: bool)
      modifies this`items
      ensures items == old(items) + [NewItem(Food(feast), x, y)]
    {
      AddItem(NewItem(Food(feast), x, y));
    }

    method SpawnMagicVial(x: int, y: int, potion: bool)
      modifies this`items
      ensures items == old(items) + [NewItem(MagicVial(potion), x, y)]
    {
      AddItem(NewItem(MagicVial(potion), x, y));
    }

    method SpawnHeartContainer(x: int, y: int)
      modifies this`items
      ensures items == old(items) + [NewItem(HeartContainer, x, y)]
    {
      AddItem(NewItem(HeartContainer, x, y));
    }

    method SpawnMagicBottle(x: int, y: int)
      modifies this`items
      ensures items == old(items) + [NewItem(MagicBottle, x, y)]
    {
      AddItem(NewItem(MagicBottle, x, y));
    }

    method SpawnCoin(x: int, y: int, value: int)
      modifies this`items
      ensures items == old(items) + [NewItem(Coin(value), x, y)]
    {
      AddItem(NewItem(Coin(value), x, y));
    }

    method SpawnKey(x: int, y: int, keyId: string)
      modifies this`items
      ensures items == old(items) + [NewItem(Key(keyId), x, y)]
    {
      AddItem(NewItem(Key(keyId), x, y));
    }

    /** `clear`. */
    method Clear()
      modifies this`items
      ensures items == []
    {
      items := [];
    }

    /**
     * `check_collection`: every item overlapping the hero is collected in
     * group order and leaves the group; the rest stay.
     */
    method CheckCollection(player: Player)
      requires player.Valid()
      modifies this`items, player`health, player`maxHealth, player`magic, player`maxMagic, player`score
      ensures player.Valid()
      ensures items == Remaining(old(items), player.rect)
      ensures player.CurrentStats() == CollectAll(old(player.CurrentStats()), Collected(old(items), player.rect))
    {
      var all := items;
      var kept := [];
      ghost var s0 := player.CurrentStats();
      var i := 0;
      while i < |all|
        invariant 0 <= i <= |all|
        invariant player.Valid()
        invariant kept == Remaining(all[..i], player.rect)
        invariant player.CurrentStats() == CollectAll(s0, Collected(all[..i], player.rect))
      {
        var it := all[i];
        assert all[..i + 1][..i] == all[..i];
        if Collide(player.rect, it.rect) {
          assert Collected(all[..i + 1], player.rect) == Collected(all[..i], player.rect) + [it];
          CollectAllSnoc(s0, Collected(all[..i], player.rect), it);
          Collect(it.kind, player);
        } else {
          assert Collected(all[..i + 1], player.rect) == Collected(all[..i], player.rect);
          kept := kept + [it];
        }
        i := i + 1;
      }
      assert all[..i] == all;
      items := kept;
    }

    /** `collect` of one item, without its removal. */
    method Collect(k: ItemKind, player: Player)
      requires player.Valid()
      modifies player`health, player`maxHealth, player`magic, player`maxMagic, player`score
      ensures player.Valid()
      ensures player.CurrentStats() == CollectEffect(old(player.CurrentStats()), k)
    {
      match k {
        case Food(feast) => player.Heal(if feast then FeastHeal else FoodHeal);
        case MagicVial(potion) => player.RestoreMagic(if potion then PotionRestore else VialRestore);
        case HeartContainer => player.IncreaseMaxHealth(HeartContainerIncrease);
        case MagicBottle => player.IncreaseMaxMagic(MagicBottleIncrease);
        case Coin(value) => player.AddScore(value);
        case Key(_) => player.AddScore(KeyValue);
      }
    }
  }
}
