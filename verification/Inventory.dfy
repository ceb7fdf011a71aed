/** One character's bag, changed in place. */
module Inventories {
  import opened Items
  import opened BagRules

  datatype AddResult = AddOk | TabFull | BadCount | MoneyFull

  datatype LoadResult = LoadOk | WrongTab | BadStack

  /** The slots whose content differs. */
  ghost function Differing(x: seq<Item>, y: seq<Item>): set<nat>
    requires |x| == |y|
  {
    set i: nat | i < |x| && x[i] != y[i]
  }

  class Inventory {
    const table: ItemTable
    const slots: array<Item>
    var changed: set<nat>      // not yet shown to the client
    var unsaved: set<nat>      // not yet confirmed by the database
    var money: int
    var moneyChanged: bool
    var locked: set<nat>       // put up in a trade
    var lockedMoney: int

    /** A locked slot is never empty and never the weapon slot; locked money is part of the money. */
    ghost predicate Valid()
      reads this, slots
    {
      && GoodTable(table)
      && GoodBag(table, slots[..])
      && (forall i :: i in locked ==> i < WORN_BASE && slots[..][i] != EMPTY_ITEM)
      && (forall i :: i in changed || i in unsaved ==> i < SLOTS)
      && 0 <= lockedMoney <= money <= MONEY_MAX
    }

    constructor (table: ItemTable)
      requires GoodTable(table)
      ensures Valid() && fresh(slots) && this.table == table
      ensures slots[..] == seq(SLOTS, i => EMPTY_ITEM) && changed == {} && unsaved == {} && money == 0 && locked == {}
              && lockedMoney == 0
    {
      this.table := table;
      slots := new Item[SLOTS](i => EMPTY_ITEM);
      changed, unsaved, locked := {}, {}, {};
      money, moneyChanged, lockedMoney := 0, false, 0;
      new;
      assert slots[..] == seq(SLOTS, i => EMPTY_ITEM);
    }

    method MarkChanged(i: nat)
      modifies `changed, `unsaved
      ensures changed == old(changed) + {i} && unsaved == old(unsaved) + {i}
    {
      changed, unsaved := changed + {i}, unsaved + {i};
    }

    // ----- taking things in

    /** All of it goes in, or nothing changes: slot items exactly when the unlocked room of their tab is enough. The
        slots marked are exactly those that changed. */
    method TryAdd(def: ItemDef, count: int) returns (r: AddResult)
      requires Valid() && def.itemId in table && table[def.itemId] == def
      modifies this, slots
      ensures Valid()
      ensures r == BadCount <==> count < 1
      ensures count >= 1 && def.storage == InMoney ==>
                && r == (if count > MONEY_MAX - old(money) then MoneyFull else AddOk)
                && money == old(money) + (if r == AddOk then count else 0) && slots[..] == old(slots[..])
      ensures count >= 1 && def.storage == InSlot ==>
                && r == (if RoomIn(old(slots[..]), locked, def, TabBase(def.tab), TabBase(def.tab) + TAB_SIZE) < count
                         then TabFull else AddOk)
                && slots[..] == (if r == AddOk then Added(old(slots[..]), locked, def, count).slots else old(slots[..]))
                && money == old(money)
      ensures r != AddOk ==> slots[..] == old(slots[..]) && money == old(money)
      ensures locked == old(locked) && lockedMoney == old(lockedMoney)
      ensures changed == old(changed) + Differing(old(slots[..]), slots[..])
              && unsaved == old(unsaved) + Differing(old(slots[..]), slots[..])
      ensures Marked(old(slots[..]), old(unsaved), slots[..], unsaved)
    {
      if count < 1 {
        return BadCount;
      }
      if def.storage == InMoney {
        var fits := TryAddMoney(count);
        return if fits then AddOk else MoneyFull;
      }
      r := AddToSlots(def, count);
    }

    method CountRoom(def: ItemDef, begin: nat, end: nat) returns (room: int)
      requires begin <= end <= slots.Length
      ensures room == RoomIn(slots[..], locked, def, begin, end)
    {
      room := 0;
      var i := begin;
      while i < end
        invariant begin <= i <= end
        invariant room + RoomIn(slots[..], locked, def, i, end) == RoomIn(slots[..], locked, def, begin, end)
      {
        if i !in locked {
          if slots[i].itemId == def.itemId {
            room := room + def.maxStack - slots[i].count;
          } else if slots[i].itemId == 0 {
            room := room + def.maxStack;
          }
        }
        i := i + 1;
      }
    }

    method AddToSlots(def: ItemDef, count: int) returns (r: AddResult)
      requires Valid() && def.itemId in table && table[def.itemId] == def && def.storage == InSlot && count >= 1
      modifies slots, `changed, `unsaved
      ensures Valid()
      ensures r == if RoomIn(old(slots[..]), locked, def, TabBase(def.tab), TabBase(def.tab) + TAB_SIZE) < count
              then TabFull else AddOk
      ensures slots[..] == if r == AddOk then Added(old(slots[..]), locked, def, count).slots else old(slots[..])
      ensures changed == old(changed) + Differing(old(slots[..]), slots[..])
      ensures unsaved == old(unsaved) + Differing(old(slots[..]), slots[..])
    {
      hide RoomIn, FillStacks, FillEmpty, Tidy, GoodSlot, Differing;
      SameSlots(slots[..]);
      ghost var before := slots[..];
      TabFits(def.tab);
      var begin := TabBase(def.tab);
      var end := begin + TAB_SIZE;
      // first only whether everything fits
      var room := CountRoom(def, begin, end);
      if room < count {
        return TabFull;
      }
      AddPlan(table, before, locked, def, count);
      var left := PutOnStacks(def, count, begin, end);
      left := PutInEmpty(def, left, begin, end);
      assert left == 0;
      return AddOk;
    }

    method PutOnStacks(def: ItemDef, count: int, begin: nat, end: nat) returns (left: int)
      requires begin <= end <= slots.Length && count >= 0 && Tidy(slots[..], locked, def)
      modifies slots, `changed, `unsaved
      ensures Fill(slots[..], left) == FillStacks(old(slots[..]), locked, def, begin, end, count)
      ensures changed == old(changed) + Differing(old(slots[..]), slots[..])
              && unsaved == old(unsaved) + Differing(old(slots[..]), slots[..])
    {
      ghost var before := slots[..];
      left := count;
      StacksChange(before, locked, def, begin, end, count);
      var i := begin;
      while i < end && left > 0
        invariant begin <= i <= end
        invariant FillStacks(slots[..], locked, def, i, end, left) == FillStacks(before, locked, def, begin, end, count)
        invariant forall j :: i <= j < slots.Length ==> slots[j] == before[j]
        invariant changed == old(changed) + Differing(before, slots[..])
                  && unsaved == old(unsaved) + Differing(before, slots[..])
      {
        if slots[i].itemId == def.itemId && slots[i].count < def.maxStack && i !in locked {
          ghost var now := slots[..];
          var put := if def.maxStack - slots[i].count < left then def.maxStack - slots[i].count else left;
          slots[i] := slots[i].(count := slots[i].count + put);
          left := left - put;
          assert slots[..] == now[i := slots[i]];
          MarkChanged(i);
          assert Differing(before, slots[..]) == Differing(before, now) + {i};
        }
        i := i + 1;
      }
    }

    /** No slot here is tested for a lock: what is locked is not empty. */
    method PutInEmpty(def: ItemDef, count: int, begin: nat, end: nat) returns (left: int)
      requires begin <= end <= slots.Length && count >= 0 && def.itemId != 0 && def.maxStack >= 1
      modifies slots, `changed, `unsaved
      ensures Fill(slots[..], left) == FillEmpty(old(slots[..]), def, begin, end, count)
      ensures changed == old(changed) + Differing(old(slots[..]), slots[..])
              && unsaved == old(unsaved) + Differing(old(slots[..]), slots[..])
    {
      ghost var before := slots[..];
      left := count;
      var i := begin;
      while i < end && left > 0
        invariant begin <= i <= end
        invariant FillEmpty(slots[..], def, i, end, left) == FillEmpty(before, def, begin, end, count)
        invariant forall j :: i <= j < slots.Length ==> slots[j] == before[j]
        invariant changed == old(changed) + Differing(before, slots[..])
                  && unsaved == old(unsaved) + Differing(before, slots[..])
      {
        if slots[i].itemId == 0 {
          ghost var now := slots[..];
          var put := if def.maxStack < left then def.maxStack else left;
          slots[i] := Item(def.itemId, put);
          left := left - put;
          assert slots[..] == now[i := slots[i]];
          MarkChanged(i);
          assert Differing(before, slots[..]) == Differing(before, now) + {i};
        }
        i := i + 1;
      }
    }

    // ----- taking things out and moving them

    method Remove(index: nat, count: int)
      requires Valid() && index < SLOTS && index !in locked && slots[..][index].itemId != 0
               && 1 <= count <= slots[..][index].count
      modifies slots, `changed, `unsaved
      ensures Valid()
      ensures slots[..] == old(slots[..])[index := if old(slots[index]).count == count then EMPTY_ITEM
                                                   else Item(old(slots[index]).itemId, old(slots[index]).count - count)]
      ensures changed == old(changed) + {index} && unsaved == old(unsaved) + {index}
      ensures Marked(old(slots[..]), old(unsaved), slots[..], unsaved)
    {
      ghost var before := slots[..];
      slots[index] := slots[index].(count := slots[index].count - count);
      if slots[index].count <= 0 {
        slots[index] := Item(0, 0);
      }
      MarkChanged(index);
      assert slots[..] == before[index := slots[index]];
      SetGood(table, before, index, slots[index]);
    }

    /** The contents change places; the caller has checked that each may lie in the other's slot. */
    method SwapSlots(a: nat, b: nat)
      requires Valid() && a < SLOTS && b < SLOTS && a != b && a !in locked && b !in locked
      requires GoodSlot(table, a, slots[..][b]) && GoodSlot(table, b, slots[..][a])
      modifies slots, `changed, `unsaved
      ensures Valid()
      ensures slots[..] == old(slots[..])[a := old(slots[..])[b]][b := old(slots[..])[a]]
      ensures multiset(slots[..]) == multiset(old(slots[..]))
      ensures changed == old(changed) + {a, b} && unsaved == old(unsaved) + {a, b}
      ensures Marked(old(slots[..]), old(unsaved), slots[..], unsaved)
    {
      ghost var before := slots[..];
      var t := slots[a];
      slots[a] := slots[b];
      slots[b] := t;
      MarkChanged(a);
      MarkChanged(b);
      assert slots[..] == before[a := before[b]][b := before[a]];
      SetGood(table, before, a, before[b]);
      SetGood(table, before[a := before[b]], b, before[a]);
    }

    method FirstEmptyInTab(tab: Tab) returns (found: Option<nat>)
      requires Valid() && tab != NoTab
      ensures found.Some? ==>
                && TabBase(tab) <= found.value < TabBase(tab) + TAB_SIZE <= |slots[..]|
                     && slots[..][found.value].itemId == 0
                && forall j :: TabBase(tab) <= j < found.value ==> slots[..][j].itemId != 0
      ensures found.None? ==>
                forall j :: TabBase(tab) <= j < TabBase(tab) + TAB_SIZE && j < |slots[..]| ==> slots[..][j].itemId != 0
    {
      TabFits(tab);
      for i := TabBase(tab) to TabBase(tab) + TAB_SIZE
        invariant forall j :: TabBase(tab) <= j < i ==> slots[j].itemId != 0
      {
        if slots[i].itemId == 0 {
          return Some(i);
        }
      }
      return None;
    }

    // ----- money

    method TryAddMoney(amount: int) returns (fits: bool)
      requires Valid() && amount >= 1
      modifies `money, `moneyChanged
      ensures Valid() && fits == (old(money) + amount <= MONEY_MAX)
      ensures money == (if fits then old(money) + amount else old(money)) && moneyChanged == (fits || old(moneyChanged))
    {
      if amount > MONEY_MAX - money {
        return false;
      }
      money := money + amount;
      moneyChanged := true;
      return true;
    }

    method SpendMoney(amount: int)
      requires Valid() && 1 <= amount <= money - lockedMoney
      modifies `money, `moneyChanged
      ensures Valid() && money == old(money) - amount && moneyChanged
    {
      money := money - amount;
      moneyChanged := true;
    }

    // ----- trade locks

    method LockSlot(index: nat)
      requires Valid() && index < WORN_BASE && slots[..][index].itemId != 0 && index !in locked
      modifies `locked
      ensures Valid() && locked == old(locked) + {index}
    {
      locked := locked + {index};
    }

    method LockMoney(amount: int)
      requires Valid() && 1 <= amount <= money - lockedMoney
      modifies `lockedMoney
      ensures Valid() && lockedMoney == old(lockedMoney) + amount
    {
      lockedMoney := lockedMoney + amount;
    }

    method UnlockAll()
      requires Valid()
      modifies `locked, `lockedMoney
      ensures Valid() && locked == {} && lockedMoney == 0
    {
      locked, lockedMoney := {}, 0;
    }

    // ----- marks

    /** The slots to show, in slot order. */
    method TakeChanges() returns (shown: seq<nat>)
      requires Valid()
      modifies `changed
      ensures Valid() && changed == {}
      ensures forall i :: i in shown <==> i in old(changed)
      ensures forall i, j :: 0 <= i < j < |shown| ==> shown[i] < shown[j]
    {
      shown := [];
      for i := 0 to SLOTS
        invariant forall j :: j in shown <==> j in changed && j < i
        invariant forall j, k :: 0 <= j < k < |shown| ==> shown[j] < shown[k]
      {
        if i in changed {
          assert forall j :: 0 <= j < |shown| ==> shown[j] in shown;
          shown := shown + [i];
        }
      }
      changed := {};
    }

    /** Taking the marks and giving them back is no change. */
    method TakeUnsaved() returns (bits: set<nat>)
      requires Valid()
      modifies `unsaved
      ensures Valid() && bits == old(unsaved) && unsaved == {}
    {
      bits := unsaved;
      unsaved := {};
    }

    method MarkUnsaved(bits: set<nat>)
      requires Valid() && forall i :: i in bits ==> i < SLOTS
      modifies `unsaved
      ensures Valid() && unsaved == old(unsaved) + bits
    {
      unsaved := unsaved + bits;
    }

    // ----- loading

    /** No mark is set: the content is what the database holds. */
    method LoadSlot(index: nat, def: ItemDef, count: int) returns (r: LoadResult)
      requires Valid() && index < SLOTS && index !in locked && def.itemId in table && table[def.itemId] == def
      modifies slots
      ensures Valid()
      ensures r == if def.tab != TabOfIndex(index) then WrongTab else if !(0 < count <= def.maxStack) then BadStack
              else LoadOk
      ensures slots[..] == if r == LoadOk then old(slots[..])[index := Item(def.itemId, count)] else old(slots[..])
    {
      if def.tab != TabOfIndex(index) {
        return WrongTab;
      }
      if count <= 0 || count > def.maxStack {
        return BadStack;
      }
      ghost var before := slots[..];
      slots[index] := Item(def.itemId, count);
      assert slots[..] == before[index := Item(def.itemId, count)];
      SetGood(table, before, index, Item(def.itemId, count));
      return LoadOk;
    }

    /** The rows of a load into a new bag, bad money left out; returns how many rows were skipped. */
    method LoadInventoryRows(rows: seq<InvRow>, loadedMoney: int) returns (skipped: nat)
      requires Valid() && locked == {} && money == 0 && lockedMoney == 0
      modifies slots, `money
      ensures Valid()
      ensures slots[..] == LoadRows(table, old(slots[..]), rows)
      ensures money == if 0 <= loadedMoney <= MONEY_MAX then loadedMoney else 0
      ensures skipped == |Unfit(table, rows)|
    {
      ghost var before := slots[..];
      skipped := 0;
      if 0 <= loadedMoney <= MONEY_MAX {
        money := loadedMoney;
      }
      for i := 0 to |rows|
        invariant Valid() && skipped == |Unfit(table, rows[..i])|
        invariant money == if 0 <= loadedMoney <= MONEY_MAX then loadedMoney else 0
        invariant slots[..] == LoadRows(table, before, rows[..i])
      {
        var r := rows[i];
        assert rows[..i + 1][..i] == rows[..i] && rows[..i + 1][i] == r;
        var place := FindInvSlot(r.slot);
        SlotNumbersRoundTrip(0, r.slot);
        OneMoreRow(table, rows, i);
        if r.slot < 0 || r.slot > 0xFFFF || place.None? {
          skipped := skipped + 1;
        } else if r.itemId !in table {
          skipped := skipped + 1;
        } else {
          var loaded := LoadSlot(place.value.index, table[r.itemId], r.count);
          if loaded != LoadOk {
            skipped := skipped + 1;
          }
        }
      }
      assert rows[..|rows|] == rows;
    }
  }

  /** The rows that are put nowhere. */
  ghost function Unfit(table: ItemTable, rows: seq<InvRow>): set<nat> {
    set i: nat | i < |rows| && Fits(table, rows[i]).None?
  }

  lemma OneMoreRow(table: ItemTable, rows: seq<InvRow>, i: nat)
    requires i < |rows|
    ensures |Unfit(table, rows[..i + 1])| == |Unfit(table, rows[..i])| + if Fits(table, rows[i]).None? then 1 else 0
  {
    hide Fits;
    var before := Unfit(table, rows[..i]);
    assert Unfit(table, rows[..i + 1]) == if Fits(table, rows[i]).None? then before + {i} else before;
  }

  // ----- slot numbers

  method FindInvSlot(slot: int) returns (place: Option<Place>)
    ensures place == FindSlot(slot)
  {
    var base := 0;
    for i := 0 to |INV_TAB_RANGES|
      invariant base == 20 * i
      invariant forall j ::
                  0 <= j < i ==>
                    !(INV_TAB_RANGES[j].firstSlot <= slot < INV_TAB_RANGES[j].firstSlot + INV_TAB_RANGES[j].slotCount)
    {
      var r := INV_TAB_RANGES[i];
      if r.firstSlot <= slot < r.firstSlot + r.slotCount {
        return Some(Place(TABS[i], base + (slot - r.firstSlot)));
      }
      base := base + r.slotCount;
    }
    assert !(INV_TAB_RANGES[0].firstSlot <= slot < INV_TAB_RANGES[0].firstSlot + INV_TAB_RANGES[0].slotCount);
    assert !(INV_TAB_RANGES[1].firstSlot <= slot < INV_TAB_RANGES[1].firstSlot + INV_TAB_RANGES[1].slotCount);
    assert !(INV_TAB_RANGES[2].firstSlot <= slot < INV_TAB_RANGES[2].firstSlot + INV_TAB_RANGES[2].slotCount);
    if WORN_FIRST <= slot < WORN_FIRST + 1 {
      return Some(Place(Equip, WORN_BASE + (slot - WORN_FIRST)));
    }
    return None;
  }

  method NumberOfSlot(index: nat) returns (slot: nat)
    requires index < SLOTS
    ensures slot == SlotNumberOf(index)
  {
    if index >= WORN_BASE {
      return WORN_FIRST + (index - WORN_BASE);
    }
    slot := 0;
    var base := 0;
    for i := 0 to |INV_TAB_RANGES|
      invariant base == 20 * i && base <= index
    {
      var r := INV_TAB_RANGES[i];
      if index < base + r.slotCount {
        return r.firstSlot + (index - base);
      }
      base := base + r.slotCount;
    }
    assert false;
  }

  // ----- what keeps a bag good

  lemma TabFits(tab: Tab)
    requires tab != NoTab
    ensures TabBase(tab) + TAB_SIZE <= WORN_BASE < SLOTS
    ensures forall i :: TabBase(tab) <= i < TabBase(tab) + TAB_SIZE ==> TabOfIndex(i) == tab
  {
  }

  lemma SetGood(table: ItemTable, bag: seq<Item>, i: nat, x: Item)
    requires GoodBag(table, bag) && i < SLOTS && GoodSlot(table, i, x)
    ensures GoodBag(table, bag[i := x])
  {
    hide GoodSlot;
  }

  lemma TidyBag(table: ItemTable, bag: seq<Item>, locked: set<nat>, def: ItemDef)
    requires GoodTable(table) && GoodBag(table, bag) && def.itemId in table && table[def.itemId] == def
             && def.storage == InSlot
    requires forall i :: i in locked ==> i < SLOTS && bag[i] != EMPTY_ITEM
    ensures Tidy(bag, locked, def)
  {
  }

  /** A slot changed by filling stacks is not changed again by opening empty slots. */
  lemma StagesApart(bag: seq<Item>, locked: set<nat>, def: ItemDef, begin: nat, end: nat, count: int)
    requires end <= |bag| && count >= 0 && Tidy(bag, locked, def)
    ensures var s := FillStacks(bag, locked, def, begin, end, count);
            var r := FillEmpty(s.slots, def, begin, end, s.left);
            s.left >= 0 && forall i :: 0 <= i < |bag| && s.slots[i] != bag[i] ==> r.slots[i] == s.slots[i]
  {
    hide FillStacks, FillEmpty;
    StacksUse(bag, locked, def, begin, end, count);
    StacksChange(bag, locked, def, begin, end, count);
    var s := FillStacks(bag, locked, def, begin, end, count);
    EmptiesAre(s.slots, locked, def, begin, end, s.left);
  }

  lemma TidyStacks(bag: seq<Item>, locked: set<nat>, def: ItemDef, begin: nat, end: nat, count: int)
    requires end <= |bag| && count >= 0 && Tidy(bag, locked, def)
    ensures FillStacks(bag, locked, def, begin, end, count).left >= 0 && def.itemId != 0 && def.maxStack >= 1
  {
    StacksUse(bag, locked, def, begin, end, count);
  }

  lemma SameSlots(x: seq<Item>)
    ensures Differing(x, x) == {}
  {
  }

  /** What the two passes rest on: everything fits, the second pass leaves the first one's slots alone. */
  lemma AddPlan(table: ItemTable, bag: seq<Item>, locked: set<nat>, def: ItemDef, count: int)
    requires GoodTable(table) && GoodBag(table, bag) && def.itemId in table && table[def.itemId] == def
             && def.storage == InSlot
    requires forall i :: i in locked ==> i < WORN_BASE && bag[i] != EMPTY_ITEM
    requires count >= 1 && def.tab != NoTab && TabBase(def.tab) + TAB_SIZE <= |bag|
    requires RoomIn(bag, locked, def, TabBase(def.tab), TabBase(def.tab) + TAB_SIZE) >= count
    ensures var b := TabBase(def.tab);
            var s := FillStacks(bag, locked, def, b, b + TAB_SIZE, count);
            var r := Added(bag, locked, def, count);
            && Tidy(bag, locked, def) && def.itemId != 0 && def.maxStack >= 1 && s.left >= 0 && r.left == 0
            && GoodBag(table, r.slots)
            && (forall i :: i in locked ==> r.slots[i] != EMPTY_ITEM)
            && Differing(bag, r.slots) == Differing(bag, s.slots) + Differing(s.slots, r.slots)
            && (forall i :: i in Differing(bag, r.slots) ==> i < |bag|)
  {
    hide RoomIn, FillStacks, FillEmpty, Tidy, GoodSlot;
    var b := TabBase(def.tab);
    TidyBag(table, bag, locked, def);
    AddedAll(bag, locked, def, count);
    StagesApart(bag, locked, def, b, b + TAB_SIZE, count);
    AddedGood(table, bag, locked, def, count);
    TidyStacks(bag, locked, def, b, b + TAB_SIZE, count);
  }

  lemma AddedGood(table: ItemTable, bag: seq<Item>, locked: set<nat>, def: ItemDef, count: int)
    requires GoodTable(table) && GoodBag(table, bag) && def.itemId in table && table[def.itemId] == def
             && def.storage == InSlot
    requires Tidy(bag, locked, def) && count >= 1 && TabBase(def.tab) + TAB_SIZE <= |bag|
    requires RoomIn(bag, locked, def, TabBase(def.tab), TabBase(def.tab) + TAB_SIZE) >= count
    ensures GoodBag(table, Added(bag, locked, def, count).slots)
    ensures forall i :: 0 <= i < |bag| && i in locked ==> Added(bag, locked, def, count).slots[i] == bag[i]
  {
    hide Added, RoomIn;
    AddedAll(bag, locked, def, count);
    TabFits(def.tab);
  }
}
