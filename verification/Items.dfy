/** Items, the item table and the numbering of bag slots.

    A bag holds 61 slots in one array: three tabs of twenty slots, then the weapon slot. The wire and
    the database use slot numbers with gaps (0-19, 100-119, 200-219, 900); the array index is dense. */
module Items {

  datatype Option<+T> = None | Some(value: T)

  datatype Tab = Equip | Use | Etc | NoTab

  /** Where an item goes: a bag slot, or the money counter. */
  datatype Storage = InSlot | InMoney

  datatype ItemDef = ItemDef(itemId: int, storage: Storage, tab: Tab, maxStack: int)

  datatype Item = Item(itemId: int, count: int)

  type ItemTable = map<int, ItemDef>

  const SLOTS: nat := 61
  const WORN_BASE: nat := 60
  const WORN_FIRST: nat := 900
  const TAB_SIZE: nat := 20
  const MONEY_MAX: int := 100000000

  const EMPTY_ITEM := Item(0, 0)

  /** What loading the item table guarantees of every row. */
  ghost predicate GoodTable(table: ItemTable) {
    forall id :: id in table ==>
      && id > 0
      && table[id].itemId == id
      && (table[id].storage == InSlot ==> table[id].maxStack >= 1 && table[id].tab != NoTab)
      && (table[id].storage == InMoney ==> table[id].tab == NoTab)
  }

  /** First array index of a tab: the slots of the tabs before it. */
  function TabBase(tab: Tab): nat
    requires tab != NoTab
  {
    match tab
    case Equip => 0
    case Use => 20
    case Etc => 40
  }

  /** The tab of the items that may lie at an index; the weapon slot takes equipment. */
  function TabOfIndex(index: nat): Tab
    requires index < SLOTS
  {
    if index >= WORN_BASE then Equip
    else if index < 20 then Equip
    else if index < 40 then Use
    else Etc
  }

  /** Slot number of an array index. */
  function SlotNumberOf(index: nat): nat
    requires index < SLOTS
  {
    if index >= WORN_BASE then WORN_FIRST + (index - WORN_BASE)
    else if index < 20 then index
    else if index < 40 then 100 + (index - 20)
    else 200 + (index - 40)
  }

  /** Whether a row `it` read for slot `index` is accepted by the loader: the item is known, its tab is
      the slot's tab, and the count fits one stack. */
  predicate Loadable(table: ItemTable, index: nat, it: Item)
    requires index < SLOTS
  {
    && it.itemId in table
    && table[it.itemId].tab == TabOfIndex(index)
    && 0 < it.count <= table[it.itemId].maxStack
  }

  /** A slot content the game can hold: nothing at all, or a stack the loader would accept. */
  predicate GoodSlot(table: ItemTable, index: nat, it: Item)
    requires index < SLOTS
  {
    it == EMPTY_ITEM || (it.itemId != 0 && Loadable(table, index, it))
  }

  /** The marking rule of the bag: every slot that has changed is marked, and no mark is lost. */
  ghost predicate Marked(bag: seq<Item>, marks: set<nat>, bag': seq<Item>, marks': set<nat>) {
    && |bag'| == |bag| && marks <= marks'
    && (forall i :: i in marks' ==> i < SLOTS)
    && (forall i :: 0 <= i < |bag| && bag'[i] != bag[i] ==> i in marks')
  }

  ghost predicate GoodBag(table: ItemTable, bag: seq<Item>) {
    |bag| == SLOTS && forall i :: 0 <= i < SLOTS ==> GoodSlot(table, i, bag[i])
  }
}
