/** Maps, their channels, and the flat table that finds a zone by its number. */
module Maps {
  import opened Items

  const CHANNELS_PER_MAP := 10000

  /** A zone object. */
  type ZoneRef = nat

  datatype Zone = Zone(zoneId: int, players: nat)

  datatype Config = Config(mapId: int, maxPlayers: int, instance: bool)

  /** The channels of one map by number. */
  datatype Table = Table(config: Config, channels: map<int, ZoneRef>)

  /** A town or hunting ground: numbers only ever go up. */
  datatype FieldMap = FieldMap(table: Table, next: int)

  datatype World = World(fields: map<int, FieldMap>, rooms: map<int, Table>, cache: map<int, ZoneRef>,
                         zones: map<ZoneRef, Zone>)

  function MakeZoneId(m: int, c: int): int {
    m * CHANNELS_PER_MAP + c
  }

  function MapIdOf(zoneId: int): int {
    zoneId / CHANNELS_PER_MAP
  }

  function ChannelOf(zoneId: int): int {
    zoneId % CHANNELS_PER_MAP
  }

  /** A zone number tells its map and channel apart as long as channels stay below the limit. */
  lemma ZoneIdDecodes(m: int, c: int)
    requires 0 <= c < CHANNELS_PER_MAP
    ensures MapIdOf(MakeZoneId(m, c)) == m && ChannelOf(MakeZoneId(m, c)) == c
  {
  }

  lemma ZoneIdsDiffer(m: int, c: int, m': int, c': int)
    requires 0 <= c < CHANNELS_PER_MAP && 0 <= c' < CHANNELS_PER_MAP
    ensures MakeZoneId(m, c) == MakeZoneId(m', c') <==> m == m' && c == c'
  {
    ZoneIdDecodes(m, c);
    ZoneIdDecodes(m', c');
  }

  function Get<T>(xs: map<int, T>, k: int): Option<T> {
    if k in xs then Some(xs[k]) else None
  }

  function FindChannel(w: World, m: int, c: int): Option<ZoneRef> {
    if m in w.fields then Get(w.fields[m].table.channels, c)
    else if m in w.rooms then Get(w.rooms[m].channels, c)
    else None
  }

  ghost predicate TableOk(m: int, t: Table, zones: map<ZoneRef, Zone>) {
    && t.config.mapId == m && t.config.maxPlayers > 0
    && forall c ::
           c in t.channels ==>
             0 <= c < CHANNELS_PER_MAP && t.channels[c] in zones && zones[t.channels[c]].zoneId == MakeZoneId(m, c)
  }

  /** No number is in both tables; a field map has its channel 0 and never gave out a number from `next` on; a room map
      has no channel 0. */
  ghost predicate TablesOk(w: World) {
    && (forall m :: m in w.fields ==>
          var f := w.fields[m];
          m !in w.rooms && TableOk(m, f.table, w.zones) && 0 in f.table.channels && f.next >= 1
              && forall c :: c in f.table.channels ==> c < f.next)
    && (forall m :: m in w.rooms ==> TableOk(m, w.rooms[m], w.zones) && 0 !in w.rooms[m].channels)
  }

  /** The flat table and the two levels give the same zone for every number there is. */
  ghost predicate CacheAgrees(w: World) {
    forall m, c :: 0 <= c < CHANNELS_PER_MAP ==> Get(w.cache, MakeZoneId(m, c)) == FindChannel(w, m, c)
  }

  ghost predicate Sound(w: World) {
    TablesOk(w) && CacheAgrees(w)
  }

  /** The first map of all. */
  lemma FirstOfAll(fields: map<int, FieldMap>, rooms: map<int, Table>, m: int)
    requires m in fields || m in rooms
    ensures |fields| + |rooms| == 1 <==> fields.Keys + rooms.Keys == {m} && (m !in fields || m !in rooms)
  {
    assert |fields| == |fields.Keys| && |rooms| == |rooms.Keys|;
    assert |fields.Keys| == 1 && m in fields ==> fields.Keys == {m} by {
      if |fields.Keys| == 1 && m in fields { OneElement(fields.Keys, m); }
    }
    assert |rooms.Keys| == 1 && m in rooms ==> rooms.Keys == {m} by {
      if |rooms.Keys| == 1 && m in rooms { OneElement(rooms.Keys, m); }
    }
    assert fields.Keys == {m} ==> |fields.Keys| == 1;
    assert rooms.Keys == {m} ==> |rooms.Keys| == 1;
    assert fields.Keys == {} || fields.Keys == {m} || fields.Keys + rooms.Keys != {m};
    assert rooms.Keys == {} || rooms.Keys == {m} || fields.Keys + rooms.Keys != {m};
  }

  lemma OneElement(s: set<int>, m: int)
    requires |s| == 1 && m in s
    ensures s == {m}
  {
    assert |s - {m}| == 0;
  }

  lemma CacheOf(w: World, m: int, c: int)
    requires CacheAgrees(w) && 0 <= c < CHANNELS_PER_MAP
    ensures Get(w.cache, MakeZoneId(m, c)) == FindChannel(w, m, c)
  {
  }

  /** What is found under a number carries that number, and the two ways to look agree on every number at all. */
  lemma GetZoneIsFindChannel(w: World, zoneId: int)
    requires Sound(w)
    ensures Get(w.cache, zoneId) == FindChannel(w, MapIdOf(zoneId), ChannelOf(zoneId))
    ensures zoneId in w.cache ==> w.cache[zoneId] in w.zones && w.zones[w.cache[zoneId]].zoneId == zoneId
  {
    var m, c := MapIdOf(zoneId), ChannelOf(zoneId);
    assert zoneId == MakeZoneId(m, c);
    CacheOf(w, m, c);
  }

  /** What is found at a channel is a zone, carries that channel's number and is in the flat table under it. */
  lemma Located(w: World, m: int, c: int)
    requires Sound(w)
    ensures FindChannel(w, m, c).Some? ==>
              var z := FindChannel(w, m, c).value;
              && 0 <= c < CHANNELS_PER_MAP && z in w.zones && w.zones[z].zoneId == MakeZoneId(m, c)
              && Get(w.cache, MakeZoneId(m, c)) == Some(z)
  {
    if FindChannel(w, m, c).Some? {
      assert 0 <= c < CHANNELS_PER_MAP;
      CacheOf(w, m, c);
    }
  }

  /** The same zone is never found under two numbers. */
  lemma ZonesAreDistinct(w: World, m: int, c: int, m': int, c': int)
    requires Sound(w) && FindChannel(w, m, c).Some? && FindChannel(w, m', c') == FindChannel(w, m, c)
    ensures m == m' && c == c'
  {
    ZoneIdsDiffer(m, c, m', c');
  }

  /** Everything but the channel `c` of map `m` is found as before. */
  ghost predicate OnlyChannel(w: World, w': World, m: int, c: int, z: Option<ZoneRef>) {
    && w'.cache == (if z.Some? then w.cache[MakeZoneId(m, c) := z.value] else w.cache - {MakeZoneId(m, c)})
    && FindChannel(w', m, c) == z
    && forall m', c' :: m' != m || c' != c ==> FindChannel(w', m', c') == FindChannel(w, m', c')
  }

  lemma CacheFollows(w: World, w': World, m: int, c: int, z: Option<ZoneRef>)
    requires CacheAgrees(w) && OnlyChannel(w, w', m, c, z) && 0 <= c < CHANNELS_PER_MAP
    ensures CacheAgrees(w')
  {
    forall m', c' | 0 <= c' < CHANNELS_PER_MAP ensures Get(w'.cache, MakeZoneId(m', c')) == FindChannel(w', m', c') {
      CacheOf(w, m', c');
      ZoneIdsDiffer(m, c, m', c');
      if m' != m || c' != c {
        assert FindChannel(w', m', c') == FindChannel(w, m', c');
      }
    }
  }

  // ----- room numbers

  predicate Free(channels: map<int, ZoneRef>, c: int) {
    1 <= c && c !in channels
  }

  /** The first `n` numbers from 1 on being taken needs `n` rooms: the search for a free one ends within the open rooms
      plus one. */
  lemma {:induction false} Pigeonhole(channels: map<int, ZoneRef>, n: nat)
    requires forall c :: 1 <= c <= n ==> c in channels
    ensures n <= |channels|
  {
    if n > 0 {
      Pigeonhole(channels - {n}, n - 1);
      assert channels.Keys == (channels - {n}).Keys + {n};
    }
  }

  predicate Full(w: World, t: Table, z: ZoneRef, admin: bool)
    requires z in w.zones
  {
    !admin && w.zones[z].players >= t.config.maxPlayers
  }

  /** Channel `c` of field map `m` would take this player. */
  predicate Open(w: World, m: int, c: int, admin: bool) {
    && m in w.fields && c in w.fields[m].table.channels
    && w.fields[m].table.channels[c] in w.zones && !Full(w, w.fields[m].table, w.fields[m].table.channels[c], admin)
  }

  /** Every zone of the table passes from `zones` to `zones'` with its number. */
  lemma TableCarriesOver(m: int, t: Table, zones: map<ZoneRef, Zone>, zones': map<ZoneRef, Zone>)
    requires TableOk(m, t, zones)
    requires forall z :: z in zones ==> z in zones' && zones'[z].zoneId == zones[z].zoneId
    ensures TableOk(m, t, zones')
  {
  }

  lemma TablesCarryOver(w: World, zones': map<ZoneRef, Zone>)
    requires TablesOk(w)
    requires forall z :: z in w.zones ==> z in zones' && zones'[z].zoneId == w.zones[z].zoneId
    ensures TablesOk(w.(zones := zones'))
  {
    hide TableOk;
    forall m | m in w.fields ensures TableOk(m, w.fields[m].table, zones') {
      TableCarriesOver(m, w.fields[m].table, w.zones, zones');
    }
    forall m | m in w.rooms ensures TableOk(m, w.rooms[m], zones') {
      TableCarriesOver(m, w.rooms[m], w.zones, zones');
    }
  }

  function WithField(w: World, m: int, f: FieldMap): World {
    w.(fields := w.fields[m := f])
  }

  function WithRoom(w: World, m: int, t: Table): World {
    w.(rooms := w.rooms[m := t])
  }

  function Added(w: World, zoneId: int, z: ZoneRef): World {
    w.(zones := w.zones[z := Zone(zoneId, 0)], cache := w.cache[zoneId := z])
  }

  /** Map `config` registered as a field map, with channel 0. */
  function NewField(w: World, config: Config, z: ZoneRef): World {
    var first: map<int, ZoneRef> := map[0 := z];
    Added(WithField(w, config.mapId, FieldMap(Table(config, first), 1)), MakeZoneId(config.mapId, 0), z)
  }

  function NewRoomMap(w: World, config: Config): World {
    WithRoom(w, config.mapId, Table(config, map[]))
  }

  /** The next channel of field map `m`. */
  function NewChannel(w: World, m: int, z: ZoneRef): World
    requires m in w.fields
  {
    var f := w.fields[m];
    Added(WithField(w, m, FieldMap(Table(f.table.config, f.table.channels[f.next := z]), f.next + 1)),
          MakeZoneId(m, f.next), z)
  }

  /** Room `c` of map `m`. */
  function NewRoom(w: World, m: int, c: int, z: ZoneRef): World
    requires m in w.rooms
  {
    Added(WithRoom(w, m, Table(w.rooms[m].config, w.rooms[m].channels[c := z])), MakeZoneId(m, c), z)
  }

  lemma AddsFieldChannel(w: World, m: int, z: ZoneRef)
    requires Sound(w) && m in w.fields && w.fields[m].next < CHANNELS_PER_MAP && z !in w.zones
    ensures var w' := NewChannel(w, m, z);
            Sound(w') && OnlyChannel(w, w', m, w.fields[m].next, Some(z))
  {
    var c := w.fields[m].next;
    var w' := NewChannel(w, m, z);
    TablesCarryOver(w, w'.zones);
    assert OnlyChannel(w, w', m, c, Some(z));
    CacheFollows(w, w', m, c, Some(z));
  }

  /** A number that could not be given out is gone all the same. */
  function Skipped(w: World, m: int): World
    requires m in w.fields
  {
    WithField(w, m, w.fields[m].(next := w.fields[m].next + 1))
  }

  lemma SkipsFieldNumber(w: World, m: int)
    requires Sound(w) && m in w.fields
    ensures Sound(Skipped(w, m)) && forall m', c :: FindChannel(Skipped(w, m), m', c) == FindChannel(w, m', c)
  {
    var w' := Skipped(w, m);
    assert forall m', c :: FindChannel(w', m', c) == FindChannel(w, m', c);
  }

  lemma AddsField(w: World, config: Config, z: ZoneRef)
    requires Sound(w) && config.mapId !in w.fields && config.mapId !in w.rooms && config.maxPlayers > 0 && z !in w.zones
    ensures var w' := NewField(w, config, z);
            Sound(w') && OnlyChannel(w, w', config.mapId, 0, Some(z))
  {
    var w' := NewField(w, config, z);
    TablesCarryOver(w, w'.zones);
    assert OnlyChannel(w, w', config.mapId, 0, Some(z));
    CacheFollows(w, w', config.mapId, 0, Some(z));
  }

  lemma AddsRoomMap(w: World, config: Config)
    requires Sound(w) && config.mapId !in w.fields && config.mapId !in w.rooms && config.maxPlayers > 0
    ensures var w' := NewRoomMap(w, config);
            Sound(w') && forall m, c :: FindChannel(w', m, c) == FindChannel(w, m, c)
  {
    var w' := NewRoomMap(w, config);
    assert forall m', c :: FindChannel(w', m', c) == FindChannel(w, m', c);
  }

  lemma AddsRoom(w: World, m: int, c: int, z: ZoneRef)
    requires Sound(w) && m in w.rooms && Free(w.rooms[m].channels, c) && c < CHANNELS_PER_MAP && z !in w.zones
    ensures var w' := NewRoom(w, m, c, z);
            Sound(w') && OnlyChannel(w, w', m, c, Some(z))
  {
    var w' := NewRoom(w, m, c, z);
    TablesCarryOver(w, w'.zones);
    assert m !in w.fields;
    assert OnlyChannel(w, w', m, c, Some(z));
    CacheFollows(w, w', m, c, Some(z));
  }

  /** Room `c` of map `m` erased, from the flat table and from memory too. */
  function Erased(w: World, m: int, c: int): World
    requires m in w.rooms && c in w.rooms[m].channels
  {
    w.(rooms := w.rooms[m := Table(w.rooms[m].config, w.rooms[m].channels - {c})],
       cache := w.cache - {MakeZoneId(m, c)}, zones := w.zones - {w.rooms[m].channels[c]})
  }

  lemma ErasesRoom(w: World, m: int, c: int)
    requires Sound(w) && m in w.rooms && c in w.rooms[m].channels
    ensures Sound(Erased(w, m, c)) && OnlyChannel(w, Erased(w, m, c), m, c, None)
  {
    var w' := Erased(w, m, c);
    var z := w.rooms[m].channels[c];
    assert m !in w.fields;
    assert OnlyChannel(w, w', m, c, None);
    CacheFollows(w, w', m, c, None);
    forall m' | m' in w'.fields ensures TableOk(m', w'.fields[m'].table, w'.zones) {
      forall c' | c' in w'.fields[m'].table.channels ensures w'.fields[m'].table.channels[c'] != z {
        ZoneIdsDiffer(m, c, m', c');
      }
    }
    forall m' | m' in w'.rooms ensures TableOk(m', w'.rooms[m'], w'.zones) {
      forall c' | c' in w'.rooms[m'].channels ensures w'.rooms[m'].channels[c'] != z {
        ZoneIdsDiffer(m, c, m', c');
      }
    }
  }

  predicate EmptyRoom(w: World, m: int, c: int) {
    m in w.rooms && c in w.rooms[m].channels && w.rooms[m].channels[c] in w.zones
        && w.zones[w.rooms[m].channels[c]].players == 0
  }

  /** Of the rooms `seen`, the empty ones are gone; everything else is found as before, and every zone left is as it
      was. */
  ghost predicate Closed(w: World, w': World, seen: set<(int, int)>) {
    && w'.fields == w.fields && w'.rooms.Keys == w.rooms.Keys
    && (forall m :: m in w.rooms ==> w'.rooms[m].config == w.rooms[m].config)
    && (forall m, c ::
          FindChannel(w', m, c) == if (m, c) in seen && EmptyRoom(w, m, c) then None else FindChannel(w, m, c))
    && (forall z :: z in w'.zones ==> z in w.zones && w'.zones[z] == w.zones[z])
  }

  /** The zones that are gone, once each. */
  ghost predicate Reported(w: World, w': World, closed: seq<ZoneRef>) {
    && (forall z :: z in closed <==> z in w.zones && z !in w'.zones)
    && (forall i, j :: 0 <= i < j < |closed| ==> closed[i] != closed[j])
  }

  lemma ClosesOne(w: World, w': World, seen: set<(int, int)>, closed: seq<ZoneRef>, m: int, c: int)
    requires Sound(w') && Closed(w, w', seen) && Reported(w, w', closed) && TablesOk(w)
    requires m in w'.rooms && c in w'.rooms[m].channels && EmptyRoom(w', m, c)
    ensures Sound(Erased(w', m, c)) && Closed(w, Erased(w', m, c), seen + {(m, c)})
    ensures Reported(w, Erased(w', m, c), closed + [w'.rooms[m].channels[c]])
  {
    assert m !in w.fields;
    assert Get(w'.rooms[m].channels, c) == FindChannel(w', m, c);
    assert Get(w.rooms[m].channels, c) == FindChannel(w, m, c);
    assert EmptyRoom(w, m, c);
    ErasesRoom(w', m, c);
    hide Sound, CacheAgrees, EmptyRoom, FindChannel, TablesOk;
    forall m', c' ensures FindChannel(Erased(w', m, c), m', c')
        == if (m', c') in seen + {(m, c)} && EmptyRoom(w, m', c') then None else FindChannel(w, m', c') {
    }
  }

  lemma KeepsOne(w: World, w': World, seen: set<(int, int)>, m: int, c: int)
    requires Closed(w, w', seen) && TablesOk(w) && m in w'.rooms && !EmptyRoom(w, m, c)
    ensures Closed(w, w', seen + {(m, c)})
  {
  }

  /** An empty room is one in both views or was closed already. */
  lemma StillEmpty(w: World, w': World, seen: set<(int, int)>, m: int, c: int)
    requires Closed(w, w', seen) && TablesOk(w) && TablesOk(w') && (m, c) !in seen
    ensures EmptyRoom(w, m, c) <==> EmptyRoom(w', m, c)
  {
    assert m in w.rooms ==> Get(w.rooms[m].channels, c) == FindChannel(w, m, c);
    assert m in w'.rooms ==> Get(w'.rooms[m].channels, c) == FindChannel(w', m, c);
  }

  /** Every room by map and number. */
  ghost function RoomsOf(rooms: map<int, Table>): set<(int, int)> {
    set m, c | m in rooms && c in rooms[m].channels :: (m, c)
  }

  lemma RoomsOfHas(rooms: map<int, Table>, x: (int, int))
    ensures x in RoomsOf(rooms) <==> x.0 in rooms && x.1 in rooms[x.0].channels
  {
    var (m, c) := x;
    assert m in rooms && c in rooms[m].channels ==> (m, c) in RoomsOf(rooms);
    if x in RoomsOf(rooms) {
      var m', c' :| m' in rooms && c' in rooms[m'].channels && x == (m', c');
    }
  }

  /** A room is gone exactly when nobody was in it. */
  lemma EmptyAreClosed(w: World, w': World)
    requires Sound(w) && Closed(w, w', RoomsOf(w.rooms))
    ensures forall m, c :: m in w.rooms && c in w.rooms[m].channels ==>
              && w.rooms[m].channels[c] in w.zones && m in w'.rooms
              && (c !in w'.rooms[m].channels <==> w.zones[w.rooms[m].channels[c]].players == 0)
  {
    forall m, c | m in w.rooms && c in w.rooms[m].channels
      ensures w.rooms[m].channels[c] in w.zones && m in w'.rooms
      ensures c !in w'.rooms[m].channels <==> w.zones[w.rooms[m].channels[c]].players == 0
    {
      assert (m, c) in RoomsOf(w.rooms);
      assert FindChannel(w', m, c) == if EmptyRoom(w, m, c) then None else FindChannel(w, m, c);
    }
  }

  ghost predicate Distinct(xs: seq<int>) {
    forall i, j :: 0 <= i < j < |xs| ==> xs[i] != xs[j]
  }

  /** Where a walk over the rooms `order` of map `m` stands: the first `j` of them are seen. */
  ghost predicate Walk(w: World, w': World, before: set<(int, int)>, seen: set<(int, int)>, closed: seq<ZoneRef>,
                       m: int, order: seq<int>, j: nat) {
    && j <= |order| && Distinct(order)
    && Sound(w') && Closed(w, w', seen) && Reported(w, w', closed)
    && (forall c :: (m, c) !in before)
    && (forall x :: x in seen <==> x in before || (x.0 == m && x.1 in order[..j]))
    && m in w'.rooms && forall k :: j <= k < |order| ==> order[k] in w'.rooms[m].channels
  }

  lemma WalkStarts(w: World, w': World, seen: set<(int, int)>, closed: seq<ZoneRef>, m: int, order: seq<int>)
    requires Sound(w') && Closed(w, w', seen) && Reported(w, w', closed) && Distinct(order)
    requires m in w'.rooms && (forall c :: (m, c) !in seen) && forall c :: c in order ==> c in w'.rooms[m].channels
    ensures Walk(w, w', seen, seen, closed, m, order, 0)
  {
    hide Sound, Closed, Reported;
    assert order[..0] == [];
    assert forall k :: 0 <= k < |order| ==> order[k] in order;
  }

  lemma WalkEnds(w: World, w': World, before: set<(int, int)>, seen: set<(int, int)>, closed: seq<ZoneRef>, m: int,
                 order: seq<int>)
    requires Walk(w, w', before, seen, closed, m, order, |order|)
    ensures Sound(w') && Closed(w, w', seen) && Reported(w, w', closed)
    ensures forall x :: x in seen <==> x in before || (x.0 == m && x.1 in order)
  {
    hide Sound, Closed, Reported;
    assert order[..|order|] == order;
  }

  lemma WalkHere(w: World, w': World, before: set<(int, int)>, seen: set<(int, int)>, closed: seq<ZoneRef>, m: int,
                 order: seq<int>, j: nat)
    requires Walk(w, w', before, seen, closed, m, order, j)
    ensures j <= |order| && m in w'.rooms
  {
  }

  lemma ClosesNone(w: World)
    ensures Closed(w, w, {}) && Reported(w, w, [])
  {
  }

  lemma WalkOn(w: World, w': World, before: set<(int, int)>, seen: set<(int, int)>, closed: seq<ZoneRef>, m: int,
               order: seq<int>, j: nat)
    requires Walk(w, w', before, seen, closed, m, order, j) && TablesOk(w) && j < |order|
    ensures order[j] in w'.rooms[m].channels && w'.rooms[m].channels[order[j]] in w'.zones
    ensures w'.zones[w'.rooms[m].channels[order[j]]].zoneId == MakeZoneId(m, order[j])
    ensures !EmptyRoom(w', m, order[j]) ==> Walk(w, w', before, seen + {(m, order[j])}, closed, m, order, j + 1)
    ensures EmptyRoom(w', m, order[j]) ==>
              Walk(w, Erased(w', m, order[j]), before, seen + {(m, order[j])},
                   closed + [w'.rooms[m].channels[order[j]]], m, order, j + 1)
  {
    var c := order[j];
    assert order[..j + 1] == order[..j] + [c];
    assert c !in order[..j];
    StillEmpty(w, w', seen, m, c);
    hide CacheAgrees, Closed, Reported, FindChannel;
    if EmptyRoom(w', m, c) {
      ClosesOne(w, w', seen, closed, m, c);
    } else {
      KeepsOne(w, w', seen, m, c);
    }
  }

  // ----- closing the empty rooms of all maps

  /** The orders in which the maps, and each map's rooms, are walked. */
  ghost predicate Listing(rooms: map<int, Table>, mapOrder: seq<int>, orders: map<int, seq<int>>) {
    && Distinct(mapOrder) && (forall m :: m in mapOrder <==> m in rooms)
    && forall m ::
           m in rooms ==> m in orders && Distinct(orders[m]) && forall c :: c in orders[m] <==> c in rooms[m].channels
  }

  /** The first `i` maps are done, the others untouched. */
  ghost predicate MapsWalk(w: World, w': World, seen: set<(int, int)>, closed: seq<ZoneRef>, mapOrder: seq<int>,
                           i: nat) {
    && i <= |mapOrder| && Sound(w') && Closed(w, w', seen) && Reported(w, w', closed)
    && (forall x: (int, int) :: x in seen <==> x.0 in mapOrder[..i] && x.0 in w.rooms && x.1 in w.rooms[x.0].channels)
    && w'.rooms.Keys == w.rooms.Keys
    && forall k :: i <= k < |mapOrder| && mapOrder[k] in w.rooms ==> w'.rooms[mapOrder[k]] == w.rooms[mapOrder[k]]
  }

  lemma MapsStart(w: World, mapOrder: seq<int>)
    requires Sound(w)
    ensures MapsWalk(w, w, {}, [], mapOrder, 0)
  {
    ClosesNone(w);
    hide Sound, Closed, Reported;
  }

  lemma MapsNext(w: World, w': World, seen: set<(int, int)>, closed: seq<ZoneRef>, mapOrder: seq<int>,
                 orders: map<int, seq<int>>, i: nat)
    requires Listing(w.rooms, mapOrder, orders) && MapsWalk(w, w', seen, closed, mapOrder, i) && i < |mapOrder|
    ensures mapOrder[i] in orders && Walk(w, w', seen, seen, closed, mapOrder[i], orders[mapOrder[i]], 0)
  {
    hide Sound, Closed, Reported, Walk;
    assert mapOrder[i] in mapOrder && mapOrder[i] !in mapOrder[..i];
    WalkStarts(w, w', seen, closed, mapOrder[i], orders[mapOrder[i]]);
  }

  lemma MapsAfter(w: World, w': World, seen: set<(int, int)>, closed: seq<ZoneRef>, mapOrder: seq<int>,
                  orders: map<int, seq<int>>, i: nat, v: World, now: set<(int, int)>, all: seq<ZoneRef>)
    requires Listing(w.rooms, mapOrder, orders) && MapsWalk(w, w', seen, closed, mapOrder, i) && i < |mapOrder|
    requires mapOrder[i] in orders && Sound(v) && Closed(w, v, now) && Reported(w, v, all)
    requires forall x :: x in now <==> x in seen || (x.0 == mapOrder[i] && x.1 in orders[mapOrder[i]])
    requires v.rooms.Keys == w'.rooms.Keys && forall q :: q in v.rooms && q != mapOrder[i] ==> v.rooms[q] == w'.rooms[q]
    ensures MapsWalk(w, v, now, all, mapOrder, i + 1)
  {
    hide Sound, Closed, Reported;
    var m := mapOrder[i];
    assert m in mapOrder && m in w.rooms;
    assert forall c :: c in orders[m] <==> c in w.rooms[m].channels;
    assert mapOrder[..i + 1] == mapOrder[..i] + [m];
    forall x: (int, int) ensures x in now <==>
          x.0 in mapOrder[..i + 1] && x.0 in w.rooms && x.1 in w.rooms[x.0].channels {
      assert x.0 == m ==> (x.1 in orders[m] <==> x.1 in w.rooms[m].channels);
      assert x.0 in mapOrder[..i + 1] <==> x.0 in mapOrder[..i] || x.0 == m;
    }
  }

  lemma MapsDone(w: World, w': World, seen: set<(int, int)>, closed: seq<ZoneRef>, mapOrder: seq<int>,
                 orders: map<int, seq<int>>)
    requires Listing(w.rooms, mapOrder, orders) && MapsWalk(w, w', seen, closed, mapOrder, |mapOrder|)
    ensures Sound(w') && Closed(w, w', RoomsOf(w.rooms)) && Reported(w, w', closed) && w'.rooms.Keys == w.rooms.Keys
  {
    hide Sound, Closed, Reported;
    assert mapOrder[..|mapOrder|] == mapOrder;
    forall x: (int, int) ensures x in seen <==> x in RoomsOf(w.rooms) {
      RoomsOfHas(w.rooms, x);
    }
    assert seen == RoomsOf(w.rooms);
  }
}
