/** The bag's stacking rule as a function of its slots, and what it promises. */
module BagRules {
  import opened Items
  import SaveTypes

  /** The slot can take `def` on top of what lies there. */
  predicate Stackable(slots: seq<Item>, locked: set<nat>, def: ItemDef, i: nat)
    requires i < |slots|
  {
    i !in locked && slots[i].itemId == def.itemId
  }

  /** What the slots from `i` to `end` can still take: the rest of every unlocked stack, and a full stack for every
      unlocked empty slot. */
  function RoomIn(slots: seq<Item>, locked: set<nat>, def: ItemDef, i: nat, end: nat): int
    requires end <= |slots|
    decreases end - i
  {
    if i >= end then 0
    else
      var rest := RoomIn(slots, locked, def, i + 1, end);
      if i in locked then rest
      else if slots[i].itemId == def.itemId then rest + def.maxStack - slots[i].count
      else if slots[i].itemId == 0 then rest + def.maxStack
      else rest
  }

  /** How many of the item lie in the slots from `i` to `end`. */
  function CountIn(slots: seq<Item>, itemId: int, i: nat, end: nat): int
    requires end <= |slots|
    decreases end - i
  {
    if i >= end then 0
    else
      (if slots[i].itemId == itemId then slots[i].count else 0) + CountIn(slots, itemId, i + 1, end)
  }

  datatype Fill = Fill(slots: seq<Item>, left: int)

  /** Stacks that are not full yet, in slot order. */
  function FillStacks(slots: seq<Item>, locked: set<nat>, def: ItemDef, i: nat, end: nat, left: int): (r: Fill)
    requires end <= |slots|
    ensures |r.slots| == |slots|
    decreases end - i
  {
    if i >= end || left <= 0 then Fill(slots, left)
    else if !Stackable(slots, locked, def, i) || slots[i].count >= def.maxStack
        then FillStacks(slots, locked, def, i + 1, end, left)
    else
      var put := if def.maxStack - slots[i].count < left then def.maxStack - slots[i].count else left;
      FillStacks(slots[i := Item(def.itemId, slots[i].count + put)], locked, def, i + 1, end, left - put)
  }

  /** Empty slots, in slot order. */
  function FillEmpty(slots: seq<Item>, def: ItemDef, i: nat, end: nat, left: int): (r: Fill)
    requires end <= |slots|
    ensures |r.slots| == |slots|
    decreases end - i
  {
    if i >= end || left <= 0 then Fill(slots, left)
    else if slots[i].itemId != 0 then FillEmpty(slots, def, i + 1, end, left)
    else
      var put := if def.maxStack < left then def.maxStack else left;
      FillEmpty(slots[i := Item(def.itemId, put)], def, i + 1, end, left - put)
  }

  /** The bag after taking `count` of an item that has room. */
  function Added(slots: seq<Item>, locked: set<nat>, def: ItemDef, count: int): (r: Fill)
    requires def.tab != NoTab && TabBase(def.tab) + TAB_SIZE <= |slots|
    ensures |r.slots| == |slots|
  {
    var b := TabBase(def.tab);
    var stacked := FillStacks(slots, locked, def, b, b + TAB_SIZE, count);
    FillEmpty(stacked.slots, def, b, b + TAB_SIZE, stacked.left)
  }

  /** The rest of the unlocked stacks alone. */
  function StackRoom(slots: seq<Item>, locked: set<nat>, def: ItemDef, i: nat, end: nat): int
    requires end <= |slots|
    decreases end - i
  {
    if i >= end then 0
    else
      (if Stackable(slots, locked, def, i) then def.maxStack - slots[i].count else 0)
      + StackRoom(slots, locked, def, i + 1, end)
  }

  /** A full stack for each empty slot. */
  function EmptyRoom(slots: seq<Item>, def: ItemDef, i: nat, end: nat): int
    requires end <= |slots|
    decreases end - i
  {
    if i >= end then 0 else (if slots[i].itemId == 0 then def.maxStack else 0) + EmptyRoom(slots, def, i + 1, end)
  }

  /** No stack of the item is over its limit, nothing locked is empty, and an empty slot is really empty. */
  ghost predicate Tidy(slots: seq<Item>, locked: set<nat>, def: ItemDef) {
    && def.itemId != 0 && def.maxStack >= 1
    && (forall i :: 0 <= i < |slots| && slots[i].itemId == def.itemId ==> 0 < slots[i].count <= def.maxStack)
    && (forall i :: 0 <= i < |slots| && slots[i].itemId == 0 ==> i !in locked && slots[i] == EMPTY_ITEM)
  }

  lemma {:induction false} RoomParts(slots: seq<Item>, locked: set<nat>, def: ItemDef, i: nat, end: nat)
    requires end <= |slots| && Tidy(slots, locked, def)
    ensures RoomIn(slots, locked, def, i, end) == StackRoom(slots, locked, def, i, end) + EmptyRoom(slots, def, i, end)
    ensures StackRoom(slots, locked, def, i, end) >= 0 && EmptyRoom(slots, def, i, end) >= 0
    decreases end - i
  {
    if i < end { RoomParts(slots, locked, def, i + 1, end); }
  }

  lemma {:induction false} SameBelow(x: seq<Item>, y: seq<Item>, locked: set<nat>, def: ItemDef, i: nat, end: nat)
    requires |x| == |y| && end <= |x| && forall j :: i <= j < end ==> x[j] == y[j]
    ensures StackRoom(x, locked, def, i, end) == StackRoom(y, locked, def, i, end)
    ensures EmptyRoom(x, def, i, end) == EmptyRoom(y, def, i, end)
    ensures CountIn(x, def.itemId, i, end) == CountIn(y, def.itemId, i, end)
    decreases end - i
  {
    if i < end { SameBelow(x, y, locked, def, i + 1, end); }
  }

  /** Filling stacks uses up exactly the room of the unlocked stacks. */
  lemma {:induction false} StacksUse(slots: seq<Item>, locked: set<nat>, def: ItemDef, i: nat, end: nat, left: int)
    requires end <= |slots| && left >= 0 && Tidy(slots, locked, def)
    ensures var r, room := FillStacks(slots, locked, def, i, end, left), StackRoom(slots, locked, def, i, end);
            r.left == if room >= left then 0 else left - room
    decreases end - i
  {
    hide CountIn, EmptyRoom, RoomIn;
    StackRoomIs(slots, locked, def, i, end);
    if i < end && left > 0 {
      if !Stackable(slots, locked, def, i) || slots[i].count >= def.maxStack {
        StacksUse(slots, locked, def, i + 1, end, left);
      } else {
        var put := if def.maxStack - slots[i].count < left then def.maxStack - slots[i].count else left;
        var v := slots[i := Item(def.itemId, slots[i].count + put)];
        StacksUse(v, locked, def, i + 1, end, left - put);
        SameBelow(v, slots, locked, def, i + 1, end);
      }
    }
  }

  lemma StackRoomIs(slots: seq<Item>, locked: set<nat>, def: ItemDef, i: nat, end: nat)
    requires end <= |slots| && Tidy(slots, locked, def)
    ensures StackRoom(slots, locked, def, i, end) >= 0 && StackRoom(slots, locked, def, i + 1, end) >= 0
  {
    RoomParts(slots, locked, def, i, end);
    RoomParts(slots, locked, def, i + 1, end);
  }

  /** What is used up is added, and no empty slot is touched. */
  lemma {:induction false} StacksCount(slots: seq<Item>, locked: set<nat>, def: ItemDef, i: nat, end: nat, left: int)
    requires end <= |slots| && left >= 0 && Tidy(slots, locked, def)
    ensures var r := FillStacks(slots, locked, def, i, end, left);
            && CountIn(r.slots, def.itemId, i, end) == CountIn(slots, def.itemId, i, end) + left - r.left
            && EmptyRoom(r.slots, def, i, end) == EmptyRoom(slots, def, i, end)
    decreases end - i
  {
    hide StackRoom, RoomIn;
    if i < end && left > 0 {
      if !Stackable(slots, locked, def, i) || slots[i].count >= def.maxStack {
        StacksCount(slots, locked, def, i + 1, end, left);
        StacksChange(slots, locked, def, i + 1, end, left);
      } else {
        var put := if def.maxStack - slots[i].count < left then def.maxStack - slots[i].count else left;
        var v := slots[i := Item(def.itemId, slots[i].count + put)];
        StacksCount(v, locked, def, i + 1, end, left - put);
        StacksChange(v, locked, def, i + 1, end, left - put);
        SameBelow(v, slots, locked, def, i + 1, end);
      }
    }
  }

  /** Only unlocked stacks of the item change, and they only grow, to the limit at most. */
  lemma {:induction false} StacksChange(slots: seq<Item>, locked: set<nat>, def: ItemDef, i: nat, end: nat, left: int)
    requires end <= |slots| && left >= 0 && Tidy(slots, locked, def)
    ensures var r := FillStacks(slots, locked, def, i, end, left);
            && Tidy(r.slots, locked, def)
            && (forall j :: 0 <= j < |slots| && r.slots[j] != slots[j] ==>
                  && i <= j < end && Stackable(slots, locked, def, j)
                  && r.slots[j].itemId == def.itemId && slots[j].count < r.slots[j].count <= def.maxStack)
    decreases end - i
  {
    if i < end && left > 0 {
      if !Stackable(slots, locked, def, i) || slots[i].count >= def.maxStack {
        StacksChange(slots, locked, def, i + 1, end, left);
      } else {
        var put := if def.maxStack - slots[i].count < left then def.maxStack - slots[i].count else left;
        StacksChange(slots[i := Item(def.itemId, slots[i].count + put)], locked, def, i + 1, end, left - put);
      }
    }
  }

  /** If something is left over, every unlocked stack of the item is full. */
  lemma {:induction false} StacksFull(slots: seq<Item>, locked: set<nat>, def: ItemDef, i: nat, end: nat, left: int,
                                      j: nat)
    requires end <= |slots| && left >= 0 && Tidy(slots, locked, def) && i <= j < end && Stackable(slots, locked, def, j)
    requires FillStacks(slots, locked, def, i, end, left).left > 0
    ensures FillStacks(slots, locked, def, i, end, left).slots[j].count == def.maxStack
    decreases end - i
  {
    if left > 0 {
      if !Stackable(slots, locked, def, i) || slots[i].count >= def.maxStack {
        if i < j { StacksFull(slots, locked, def, i + 1, end, left, j); }
        StacksChange(slots, locked, def, i + 1, end, left);
      } else {
        var put := if def.maxStack - slots[i].count < left then def.maxStack - slots[i].count else left;
        var v := slots[i := Item(def.itemId, slots[i].count + put)];
        if i < j { StacksFull(v, locked, def, i + 1, end, left - put, j); }
        StacksChange(v, locked, def, i + 1, end, left - put);
        StacksStop(v, locked, def, i + 1, end, left - put);
      }
    }
  }

  lemma StacksStop(slots: seq<Item>, locked: set<nat>, def: ItemDef, i: nat, end: nat, left: int)
    requires end <= |slots|
    ensures left <= 0 ==> FillStacks(slots, locked, def, i, end, left) == Fill(slots, left)
  {
  }

  /** Filling empty slots adds what it uses up, to empty slots only. */
  lemma {:induction false} EmptiesAre(slots: seq<Item>, locked: set<nat>, def: ItemDef, i: nat, end: nat, left: int)
    requires end <= |slots| && left >= 0 && Tidy(slots, locked, def)
    ensures var r := FillEmpty(slots, def, i, end, left);
            && 0 <= r.left <= left
            && r.left == (if EmptyRoom(slots, def, i, end) >= left then 0 else left - EmptyRoom(slots, def, i, end))
            && CountIn(r.slots, def.itemId, i, end) == CountIn(slots, def.itemId, i, end) + left - r.left
            && (forall j :: 0 <= j < |slots| && r.slots[j] != slots[j] ==>
                  i <= j < end && slots[j] == EMPTY_ITEM && r.slots[j].itemId == def.itemId
                      && 0 < r.slots[j].count <= def.maxStack)
    decreases end - i
  {
    if i < end { RoomParts(slots, locked, def, i, end); }
    if i < end && left > 0 {
      if slots[i].itemId != 0 {
        EmptiesAre(slots, locked, def, i + 1, end, left);
        RoomParts(slots, locked, def, i + 1, end);
      } else {
        var put := if def.maxStack < left then def.maxStack else left;
        var v := slots[i := Item(def.itemId, put)];
        EmptiesAre(v, locked, def, i + 1, end, left - put);
        SameBelow(v, slots, locked, def, i + 1, end);
        RoomParts(v, locked, def, i + 1, end);
        assert FillEmpty(v, def, i + 1, end, left - put).slots[i] == v[i];
      }
    }
  }

  /** Bag insertion: with enough unlocked room in its tab, all of `count` goes in. Locked and foreign slots and other
      tabs stay as they are, and an empty slot is opened only when every unlocked stack of the item is full. */
  lemma AddedAll(slots: seq<Item>, locked: set<nat>, def: ItemDef, count: int)
    requires def.tab != NoTab && TabBase(def.tab) + TAB_SIZE <= |slots| && Tidy(slots, locked, def) && count >= 1
    requires RoomIn(slots, locked, def, TabBase(def.tab), TabBase(def.tab) + TAB_SIZE) >= count
    ensures var b, r := TabBase(def.tab), Added(slots, locked, def, count);
            && r.left == 0
            && CountIn(r.slots, def.itemId, b, b + TAB_SIZE) == CountIn(slots, def.itemId, b, b + TAB_SIZE) + count
            && (forall j :: 0 <= j < |slots| && r.slots[j] != slots[j] ==>
                  && b <= j < b + TAB_SIZE && j !in locked && (slots[j] == EMPTY_ITEM || slots[j].itemId == def.itemId)
                  && r.slots[j].itemId == def.itemId && 0 < r.slots[j].count <= def.maxStack
                       && slots[j].count < r.slots[j].count)
            && (forall j, k ::
                  0 <= j < |slots| && slots[j] == EMPTY_ITEM && r.slots[j] != slots[j] && b <= k < b + TAB_SIZE
                      && Stackable(slots, locked, def, k)
                  ==> r.slots[k].count == def.maxStack)
  {
    hide FillStacks, FillEmpty, RoomIn, CountIn, StackRoom, EmptyRoom;
    var b := TabBase(def.tab);
    var e := b + TAB_SIZE;
    RoomParts(slots, locked, def, b, e);
    StacksUse(slots, locked, def, b, e, count);
    StacksCount(slots, locked, def, b, e, count);
    StacksChange(slots, locked, def, b, e, count);
    var s := FillStacks(slots, locked, def, b, e, count);
    EmptiesAre(s.slots, locked, def, b, e, s.left);
    var r := Added(slots, locked, def, count);
    forall j | 0 <= j < |slots| && r.slots[j] != slots[j]
      ensures b <= j < e && j !in locked && (slots[j] == EMPTY_ITEM || slots[j].itemId == def.itemId)
      ensures r.slots[j].itemId == def.itemId && 0 < r.slots[j].count <= def.maxStack
              && slots[j].count < r.slots[j].count
    {
      if s.slots[j] == slots[j] { assert r.slots[j] != s.slots[j]; }
    }
    forall j, k | 0 <= j < |slots| && slots[j] == EMPTY_ITEM && r.slots[j] != slots[j] && b <= k < e
        && Stackable(slots, locked, def, k)
      ensures r.slots[k].count == def.maxStack
    {
      if s.left == 0 { NothingLeft(s.slots, def, b, e, s.left); }
      assert s.slots[j] == slots[j];
      StacksFull(slots, locked, def, b, e, count, k);
    }
  }

  /** Everything fits exactly when the unlocked room of the tab is enough. */
  lemma FitsIffRoom(slots: seq<Item>, locked: set<nat>, def: ItemDef, count: int)
    requires def.tab != NoTab && TabBase(def.tab) + TAB_SIZE <= |slots| && Tidy(slots, locked, def) && count >= 1
    ensures Added(slots, locked, def, count).left == 0
            <==> RoomIn(slots, locked, def, TabBase(def.tab), TabBase(def.tab) + TAB_SIZE) >= count
  {
    hide FillStacks, FillEmpty, RoomIn, CountIn, StackRoom, EmptyRoom;
    var b := TabBase(def.tab);
    var e := b + TAB_SIZE;
    RoomParts(slots, locked, def, b, e);
    StacksUse(slots, locked, def, b, e, count);
    StacksCount(slots, locked, def, b, e, count);
    StacksChange(slots, locked, def, b, e, count);
    var s := FillStacks(slots, locked, def, b, e, count);
    EmptiesAre(s.slots, locked, def, b, e, s.left);
  }

  lemma NothingLeft(slots: seq<Item>, def: ItemDef, i: nat, end: nat, left: int)
    requires end <= |slots| && left <= 0
    ensures FillEmpty(slots, def, i, end, left) == Fill(slots, left)
  {
  }

  // ----- slot numbers

  datatype Place = Place(tab: Tab, index: nat)

  datatype TabRange = TabRange(firstSlot: nat, slotCount: nat)

  const INV_TAB_RANGES: seq<TabRange> := [TabRange(0, 20), TabRange(100, 20), TabRange(200, 20)]

  const TABS: seq<Tab> := [Equip, Use, Etc]

  /** Where a slot number of the wire or the database lies in the bag. */
  function FindSlot(slot: int): Option<Place> {
    if 0 <= slot < 20 then Some(Place(Equip, slot))
    else if 100 <= slot < 120 then Some(Place(Use, 20 + (slot - 100)))
    else if 200 <= slot < 220 then Some(Place(Etc, 40 + (slot - 200)))
    else if slot == WORN_FIRST then Some(Place(Equip, WORN_BASE))
    else None
  }

  /** Numbering and finding undo each other, and the tab found is that of the items that may lie there. */
  lemma SlotNumbersRoundTrip(index: nat, slot: int)
    ensures index < SLOTS ==> FindSlot(SlotNumberOf(index)) == Some(Place(TabOfIndex(index), index))
    ensures FindSlot(slot).Some? ==>
              var p := FindSlot(slot).value;
              p.index < SLOTS && SlotNumberOf(p.index) == slot && p.tab == TabOfIndex(p.index)
  {
  }

  // ----- loading

  datatype InvRow = InvRow(slot: int, itemId: int, count: int)

  /** What a row puts where, if it is fit. */
  function Fits(table: ItemTable, r: InvRow): Option<nat> {
    if 0 <= r.slot <= 0xFFFF && FindSlot(r.slot).Some? && r.itemId in table
       && table[r.itemId].tab == FindSlot(r.slot).value.tab && 0 < r.count <= table[r.itemId].maxStack
    then Some(FindSlot(r.slot).value.index) else None
  }

  /** The rows one after the other over a bag; unfit rows are skipped. */
  function LoadRows(table: ItemTable, slots: seq<Item>, rows: seq<InvRow>): (r: seq<Item>)
    ensures |r| == |slots|
  {
    if rows == [] then slots
    else
      var before := LoadRows(table, slots, rows[..|rows| - 1]);
      var last := rows[|rows| - 1];
      var at := Fits(table, last);
      if at.Some? && at.value < |before| then before[at.value := Item(table[last.itemId].itemId, last.count)]
         else before
  }

  /** The stored rows by bag index; a slot number has one row, since it is part of the key. */
  function Stored(rows: seq<InvRow>): map<nat, Item> {
    if rows == [] then map[]
    else
      var last := rows[|rows| - 1];
      var before := Stored(rows[..|rows| - 1]);
      if FindSlot(last.slot).Some? then before[FindSlot(last.slot).value.index := Item(last.itemId, last.count)]
         else before
  }

  /** Loading row by row into an empty bag reads, slot by slot, the stored item where it is fit and nothing
      elsewhere. */
  lemma {:induction false} LoadReadsEachSlot(table: ItemTable, empty: seq<Item>, rows: seq<InvRow>, i: nat)
    requires GoodTable(table) && |empty| == SLOTS && i < SLOTS
             && (forall j :: 0 <= j < SLOTS ==> empty[j] == EMPTY_ITEM)
    requires forall j, k :: 0 <= j < k < |rows| ==> rows[j].slot != rows[k].slot
    ensures LoadRows(table, empty, rows)[i] == SaveTypes.ReadSlot(table, Stored(rows), i)
    ensures i in Stored(rows) <==> exists j :: 0 <= j < |rows| && rows[j].slot == SlotNumberOf(i)
    ensures forall j :: 0 <= j < |rows| && rows[j].slot == SlotNumberOf(i) ==>
              LoadRows(table, empty, rows)[i] ==
              if rows[j].itemId in table && table[rows[j].itemId].tab == TabOfIndex(i)
                 && 0 < rows[j].count <= table[rows[j].itemId].maxStack
              then Item(rows[j].itemId, rows[j].count) else Item(0, 0)
    ensures (forall j :: 0 <= j < |rows| ==> rows[j].slot != SlotNumberOf(i)) ==>
              LoadRows(table, empty, rows)[i] == Item(0, 0)
  {
    SlotNumbersRoundTrip(i, 0);
    if rows != [] {
      var shorter, last := rows[..|rows| - 1], rows[|rows| - 1];
      LoadReadsEachSlot(table, empty, shorter, i);
      SlotNumbersRoundTrip(0, last.slot);
      assert forall j :: 0 <= j < |shorter| ==> shorter[j].slot != last.slot;
      if FindSlot(last.slot) == Some(Place(TabOfIndex(i), i)) {
        assert last.slot == SlotNumberOf(i);
      } else {
        assert last.slot != SlotNumberOf(i);
        assert forall j :: 0 <= j < |shorter| ==> shorter[j] == rows[j];
      }
    }
  }
}
