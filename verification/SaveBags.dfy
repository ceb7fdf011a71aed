/** The bag's own operations are among the things the save protocol lets the game do to a player. */
module SaveBags {
  import opened Items
  import opened SaveTypes
  import opened SaveViews
  import Inventories

  /** The player carries this bag and its money. */
  ghost predicate Carries(p: Player, bag: Inventories.Inventory)
    reads bag, bag.slots
  {
    p.bag == bag.slots[..] && p.unsaved == bag.unsaved && p.values.money == bag.money
  }

  /** The player as its bag is now. */
  ghost function With(p: Player, bag: Inventories.Inventory): Player
    reads bag, bag.slots
  {
    p.(bag := bag.slots[..], unsaved := bag.unsaved, values := p.values.(money := bag.money))
  }

  /** A bag and money that keep the marking rule are a change the protocol allows; the row's marks stay as they are. */
  lemma MarkedIsPlayed(table: ItemTable, p: Player, bag: seq<Item>, marks: set<nat>, money: int)
    requires GoodBag(table, bag) && GoodMoney(money) && Marked(p.bag, p.unsaved, bag, marks)
    ensures Plays(table, p, p.(bag := bag, unsaved := marks, values := p.values.(money := money)))
  {
    hide GoodBag;
  }

  /** TryAdd, Remove and SwapSlots, and the changes of money, on the bag of a player are therefore such changes: they
      keep the bag valid and promise the marking rule. */
  twostate lemma BagIsPlayed(p: Player, bag: Inventories.Inventory)
    requires old(Carries(p, bag)) && bag.Valid()
    requires Marked(old(bag.slots[..]), old(bag.unsaved), bag.slots[..], bag.unsaved)
    ensures Carries(With(p, bag), bag) && Plays(bag.table, p, With(p, bag))
  {
    hide GoodBag, Marked;
    MarkedIsPlayed(bag.table, p, bag.slots[..], bag.unsaved, bag.money);
  }
}
