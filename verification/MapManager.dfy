/** The map manager, changing its tables in place. */
module MapManagers {
  import opened Items
  import opened Maps

  datatype Reject = NoReject | NotFound | FullChannel | SameZone | NotAllowed

  datatype Target = Target(zone: Option<ZoneRef>, reject: Reject)

  class MapManager {
    var fields: map<int, FieldMap>
    var rooms: map<int, Table>
    var cache: map<int, ZoneRef>
    var zones: map<ZoneRef, Zone>
    var nextZone: ZoneRef          // the next zone object
    var defaultMap: int

    ghost function View(): World
      reads this
    {
      World(fields, rooms, cache, zones)
    }

    ghost predicate Valid()
      reads this
    {
      && Sound(View())
      && (forall z :: z in zones ==> z < nextZone)
      && (fields.Keys + rooms.Keys != {} ==> defaultMap in fields || defaultMap in rooms)
    }

    constructor ()
      ensures Valid() && View() == World(map[], map[], map[], map[]) && defaultMap == 0
    {
      fields, rooms, cache, zones, nextZone, defaultMap := map[], map[], map[], map[], 0, 0;
    }

    /** A player has come into the zone (1) or has gone from it (-1); no lookup changes. */
    method CountPlayer(z: ZoneRef, change: int)
      requires Valid() && z in zones && (change == 1 || (change == -1 && zones[z].players > 0))
      modifies `zones
      ensures Valid() && zones == old(zones)[z := old(zones)[z].(players := old(zones)[z].players + change)]
      ensures forall m, c :: FindChannel(View(), m, c) == FindChannel(old(View()), m, c)
    {
      zones := zones[z := zones[z].(players := zones[z].players + change)];
      TablesCarryOver(old(View()), zones);
    }

    /** A zone object for channel `c`, unless the number is over the limit or taken, or the zone cannot be set up. */
    method Create(t: Table, c: int, setUp: bool) returns (r: Table, z: Option<ZoneRef>)
      modifies `zones, `nextZone
      ensures z.Some? <==> c < CHANNELS_PER_MAP && c !in t.channels && setUp
      ensures z.None? ==> r == t && zones == old(zones) && nextZone == old(nextZone)
      ensures z.Some? ==>
                && z.value == old(nextZone) && nextZone == old(nextZone) + 1
                && r == Table(t.config, t.channels[c := z.value])
                && zones == old(zones)[z.value := Zone(MakeZoneId(t.config.mapId, c), 0)]
    {
      r, z := t, None;
      if c >= CHANNELS_PER_MAP || c in t.channels || !setUp {
        return;
      }
      z := Some(nextZone);
      zones := zones[nextZone := Zone(MakeZoneId(t.config.mapId, c), 0)];
      r := Table(t.config, t.channels[c := nextZone]);
      nextZone := nextZone + 1;
    }

    /** Refused for a bad capacity or a number that either kind of map has; the first map registered is the one players
        start on. */
    method RegisterMap(config: Config, setUp: bool) returns (ok: bool)
      requires Valid()
      modifies this
      ensures Valid()
      ensures ok <==>
                config.maxPlayers > 0 && config.mapId !in old(fields) && config.mapId !in old(rooms)
                && (config.instance || setUp)
      ensures !ok ==> View() == old(View()) && defaultMap == old(defaultMap)
      ensures ok ==>
                View() == (if config.instance then NewRoomMap(old(View()), config)
                           else NewField(old(View()), config, old(nextZone)))
      ensures ok ==> defaultMap == if old(fields.Keys + rooms.Keys) == {} then config.mapId else old(defaultMap)
    {
      hide Sound, OnlyChannel, FindChannel;
      ghost var keys := fields.Keys + rooms.Keys;
      if config.maxPlayers <= 0 || config.mapId in fields || config.mapId in rooms {
        return false;
      }
      if config.instance {
        AddsRoomMap(View(), config);
        rooms := rooms[config.mapId := Table(config, map[])];
      } else {
        AddsField(View(), config, nextZone);
        var t, z := Create(Table(config, map[]), 0, setUp);
        if z.None? {
          return false;
        }
        fields := fields[config.mapId := FieldMap(t, 1)];
        cache := cache[MakeZoneId(config.mapId, 0) := z.value];
      }
      NoteFirst(config.mapId, keys);
      return true;
    }

    /** The first map registered is the default one; `before` are the maps there were before. */
    method NoteFirst(mapId: int, ghost before: set<int>)
      requires mapId !in before && fields.Keys + rooms.Keys == before + {mapId} && (mapId !in fields || mapId !in rooms)
      modifies `defaultMap
      ensures defaultMap == if before == {} then mapId else old(defaultMap)
    {
      FirstOfAll(fields, rooms, mapId);
      assert before == {} <==> fields.Keys + rooms.Keys == {mapId};
      if |fields| + |rooms| == 1 {
        defaultMap := mapId;
      }
    }

    /** A field map has its first channel, and an administrator may always enter it. */
    lemma FirstIsOpen(m: int)
      requires Valid() && m in fields
      ensures Open(View(), m, 0, true) && FindChannel(View(), m, 0).Some?
    {
      hide CacheAgrees, OnlyChannel;
    }

    /** No room anywhere: every channel has its players. */
    lemma AllAreFull(m: int, isAdmin: bool)
      requires Valid() && m in fields && forall c :: !Open(View(), m, c, isAdmin)
      ensures !isAdmin && fields[m].table.config.maxPlayers > 0
      ensures forall c :: c in fields[m].table.channels ==>
                && fields[m].table.channels[c] in zones
                && zones[fields[m].table.channels[c]].players >= fields[m].table.config.maxPlayers
    {
      hide CacheAgrees, OnlyChannel;
      if isAdmin { FirstIsOpen(m); }
      forall c | c in fields[m].table.channels
        ensures fields[m].table.channels[c] in zones
                && zones[fields[m].table.channels[c]].players >= fields[m].table.config.maxPlayers
      {
        assert !Open(View(), m, c, isAdmin);
      }
    }

    /** For `isAdmin` or within capacity: channel 0 first, then any other that has room, then a new one under the next
        number; `order` is the order in which the table is walked. No zone means that all are full and no number is
        left, or that the map has no automatic channels. */
    method FindOrCreateChannel(mapId: int, isAdmin: bool, order: seq<int>, setUp: bool) returns (z: Option<ZoneRef>)
      requires Valid() && (mapId in fields ==> forall c :: c in order <==> c in fields[mapId].table.channels)
      modifies this
      ensures Valid() && defaultMap == old(defaultMap)
      ensures mapId !in old(fields) ==> z.None? && View() == old(View())
      ensures mapId in old(fields) && (exists c :: Open(old(View()), mapId, c, isAdmin)) ==>
                && View() == old(View()) && z.Some?
                     && exists c :: Open(View(), mapId, c, isAdmin) && FindChannel(View(), mapId, c) == z
      ensures Open(old(View()), mapId, 0, isAdmin) ==> z == FindChannel(View(), mapId, 0)
      ensures mapId in old(fields) && !(exists c :: Open(old(View()), mapId, c, isAdmin)) ==>
                && z == (if old(fields)[mapId].next < CHANNELS_PER_MAP && setUp then Some(old(nextZone)) else None)
                && View() == if z.Some? then NewChannel(old(View()), mapId, z.value) else Skipped(old(View()), mapId)
      ensures z.Some? ==>
                z.value in zones && MapIdOf(zones[z.value].zoneId) == mapId && GetZone(zones[z.value].zoneId) == z
      ensures z.Some? && !isAdmin ==>
                mapId in fields && zones[z.value].players < fields[mapId].table.config.maxPlayers
      ensures mapId in old(fields) && (z.None? || z.value !in old(zones)) ==>
                !isAdmin && forall c :: c in old(fields)[mapId].table.channels ==>
                  var t := old(fields)[mapId].table;
                  t.channels[c] in old(zones) && old(zones)[t.channels[c]].players >= t.config.maxPlayers
    {
      hide CacheAgrees, OnlyChannel;
      if mapId !in fields {
        return None;
      }
      ghost var w := View();
      var field := fields[mapId];
      var found := Pick(mapId, isAdmin, order);
      if found.Some? {
        z := Some(field.table.channels[found.value]);
        CacheOf(w, mapId, found.value);
        Located(w, mapId, found.value);
        ZoneIdDecodes(mapId, found.value);
        cache := cache[zones[z.value].zoneId := z.value];
        assert cache == w.cache;
        assert Open(View(), mapId, found.value, isAdmin) && FindChannel(View(), mapId, found.value) == z;
        return;
      }
      AllAreFull(mapId, isAdmin);
      var t;
      t, z := Create(field.table, field.next, setUp);
      fields := fields[mapId := FieldMap(t, field.next + 1)];
      if z.Some? {
        AddsFieldChannel(w, mapId, z.value);
        ZoneIdDecodes(mapId, field.next);
        cache := cache[zones[z.value].zoneId := z.value];
      } else {
        SkipsFieldNumber(w, mapId);
      }
    }

    /** The channel a field map has room in, if it has one. */
    method Pick(mapId: int, isAdmin: bool, order: seq<int>) returns (found: Option<int>)
      requires Valid() && mapId in fields && forall c :: c in order <==> c in fields[mapId].table.channels
      ensures found.Some? ==> Open(View(), mapId, found.value, isAdmin)
      ensures found.None? ==> forall c :: !Open(View(), mapId, c, isAdmin)
      ensures Open(View(), mapId, 0, isAdmin) ==> found == Some(0)
    {
      var t := fields[mapId].table;
      if !IsChannelFull(t, t.channels[0], isAdmin) {
        return Some(0);
      }
      var i := 0;
      while i < |order|
        invariant i <= |order| && forall j :: 0 <= j < i ==> !Open(View(), mapId, order[j], isAdmin)
      {
        if order[i] != 0 && !IsChannelFull(t, t.channels[order[i]], isAdmin) {
          return Some(order[i]);
        }
        i := i + 1;
      }
      return None;
    }

    predicate IsChannelFull(t: Table, z: ZoneRef, isAdmin: bool)
      requires z in zones
      reads `zones
    {
      !isAdmin && zones[z].players >= t.config.maxPlayers
    }

    /** The smallest free number from 1 up; refused exactly for a map without rooms, when every number is used, or when
        the zone cannot be set up. The search takes at most one probe more than there are rooms. */
    method CreateRoom(mapId: int, setUp: bool) returns (z: Option<ZoneRef>, probes: nat)
      requires Valid()
      modifies this
      ensures Valid() && defaultMap == old(defaultMap)
      ensures z.None? ==> View() == old(View())
      ensures z.None? <==>
                mapId !in old(rooms) || !setUp || forall c ::
                  1 <= c < CHANNELS_PER_MAP ==> c in old(rooms)[mapId].channels
      ensures z.Some? ==>
                && Free(old(rooms)[mapId].channels, probes)
                     && (forall c :: 1 <= c < probes ==> c in old(rooms)[mapId].channels)
                && z.value == old(nextZone) && View() == NewRoom(old(View()), mapId, probes, z.value)
      ensures mapId in old(rooms) ==> probes <= |old(rooms)[mapId].channels| + 1
    {
      hide CacheAgrees, OnlyChannel;
      z, probes := None, 0;
      if mapId !in rooms {
        return;
      }
      ghost var w := View();
      var t := rooms[mapId];
      var c := 1;
      while c < CHANNELS_PER_MAP
        invariant 1 <= c <= CHANNELS_PER_MAP && probes == c - 1 && z.None? && View() == w && nextZone == old(nextZone)
        invariant forall q :: 1 <= q < c ==> q in t.channels
        invariant Valid() && defaultMap == old(defaultMap)
      {
        probes := probes + 1;
        Pigeonhole(t.channels, c - 1);
        if c !in t.channels {
          var r;
          r, z := Create(t, c, setUp);
          if z.Some? {
            AddsRoom(w, mapId, c, z.value);
            rooms := rooms[mapId := r];
            cache := cache[zones[z.value].zoneId := z.value];
          }
          return;
        }
        c := c + 1;
      }
      Pigeonhole(t.channels, c - 1);
    }

    /** One map's share of it; `closed` and `seen` say what the maps before it contributed. */
    method CloseRoomsOf(ghost w: World, m: int, order: seq<int>, closed: seq<ZoneRef>, ghost seen: set<(int, int)>)
      returns (all: seq<ZoneRef>, ghost now: set<(int, int)>)
      requires Valid() && TablesOk(w) && Walk(w, View(), seen, seen, closed, m, order, 0)
      modifies `rooms, `cache, `zones
      ensures Valid() && Closed(w, View(), now) && Reported(w, View(), all)
      ensures forall x :: x in now <==> x in seen || (x.0 == m && x.1 in order)
      ensures rooms.Keys == old(rooms).Keys && forall q :: q in rooms && q != m ==> rooms[q] == old(rooms)[q]
    {
      hide Sound, TablesOk, Closed, Reported, Walk;
      WalkHere(w, View(), seen, seen, closed, m, order, 0);
      all, now := closed, seen;
      var j := 0;
      while j < |order|
        invariant j <= |order| && Walk(w, View(), seen, now, all, m, order, j)
        invariant forall z :: z in zones ==> z < nextZone
        invariant m in rooms && rooms.Keys == old(rooms).Keys
                  && forall q :: q in rooms && q != m ==> rooms[q] == old(rooms)[q]
      {
        var c := order[j];
        WalkOn(w, View(), seen, now, all, m, order, j);
        var z := rooms[m].channels[c];
        now := now + {(m, c)};
        if zones[z].players == 0 {
          cache := cache - {zones[z].zoneId};
          all := all + [z];
          rooms := rooms[m := Table(rooms[m].config, rooms[m].channels - {c})];
          zones := zones - {z};
        }
        j := j + 1;
      }
      WalkEnds(w, View(), seen, now, all, m, order);
    }

    /** Exactly the rooms without players go, out of the flat table and out of memory, and each is reported once. */
    method CloseEmptyRooms(mapOrder: seq<int>, orders: map<int, seq<int>>) returns (closed: seq<ZoneRef>)
      requires Valid() && Listing(rooms, mapOrder, orders)
      modifies `rooms, `cache, `zones
      ensures Valid() && Reported(old(View()), View(), closed)
      ensures Closed(old(View()), View(), RoomsOf(old(rooms)))
      ensures forall m, c :: m in old(rooms) && c in old(rooms)[m].channels ==>
                && old(rooms)[m].channels[c] in old(zones) && m in rooms
                && (c !in rooms[m].channels <==> old(zones)[old(rooms)[m].channels[c]].players == 0)
    {
      assert TablesOk(View());
      hide Sound, TablesOk, Closed, Reported, Walk, Listing, MapsWalk;
      closed := [];
      ghost var w, seen := View(), {};
      MapsStart(w, mapOrder);
      var i := 0;
      while i < |mapOrder|
        invariant i <= |mapOrder| && MapsWalk(w, View(), seen, closed, mapOrder, i)
        invariant Valid() && rooms.Keys == w.rooms.Keys
      {
        MapsNext(w, View(), seen, closed, mapOrder, orders, i);
        ghost var before, seenBefore, closedBefore := View(), seen, closed;
        closed, seen := CloseRoomsOf(w, mapOrder[i], orders[mapOrder[i]], closed, seen);
        MapsAfter(w, before, seenBefore, closedBefore, mapOrder, orders, i, View(), seen, closed);
        i := i + 1;
      }
      MapsDone(w, View(), seen, closed, mapOrder, orders);
      EmptyAreClosed(w, View());
    }

    function GetZone(zoneId: int): Option<ZoneRef>
      reads this
    {
      Get(cache, zoneId)
    }

    /** Where a request to change zones leads. `random` is the drawn map: some field map other than the present one, or
        -1 when there is none. What is found is never the zone the player is in; an ordinary player stays in a field
        map's other channels, and only where there is room. */
    method PickZoneChangeTarget(currentZoneId: int, targetMapId: int, targetChannel: int, isAdmin: bool,
                                random: int, order: seq<int>, setUp: bool) returns (t: Target)
      requires Valid() && currentZoneId >= 0
      requires if random == -1 then fields.Keys <= {MapIdOf(currentZoneId)}
               else random in fields && random != MapIdOf(currentZoneId)
      requires var m := if targetMapId == -1 then random else targetMapId;
               m in fields ==> forall c :: c in order <==> c in fields[m].table.channels
      modifies this
      ensures Valid() && (t.zone.Some? <==> t.reject == NoReject)
      ensures t.zone.Some? ==>
                t.zone.value in zones && zones[t.zone.value].zoneId != currentZoneId
                && GetZone(zones[t.zone.value].zoneId) == t.zone
      ensures t.zone.Some? && !isAdmin ==>
                && MapIdOf(zones[t.zone.value].zoneId) == MapIdOf(currentZoneId) && MapIdOf(currentZoneId) in fields
                && zones[t.zone.value].players < fields[MapIdOf(currentZoneId)].table.config.maxPlayers
      ensures targetChannel >= 0 ==>
                && View() == old(View()) && var m := currentZoneId / CHANNELS_PER_MAP;
                var z := FindChannel(View(), m, targetChannel);
                var same := m * CHANNELS_PER_MAP + targetChannel == currentZoneId;
                && (t.reject == NotAllowed <==> m in rooms && !isAdmin)
                && (t.reject == NotFound <==> !(m in rooms && !isAdmin) && z.None?)
                && (t.reject == SameZone <==> !(m in rooms && !isAdmin) && z.Some? && same)
                && (t.reject == FullChannel <==>
                      !isAdmin && m in fields && z.Some? && !same
                      && z.value in zones && zones[z.value].players >= fields[m].table.config.maxPlayers)
                && (t.reject == NoReject ==> t.zone == z)
      ensures targetChannel < 0 && !isAdmin ==> View() == old(View()) && t.reject == NotAllowed
      ensures targetChannel < 0 && isAdmin ==>
                && View() == old(View()) && var m := if targetMapId == -1 then random else targetMapId;
                && ((m == -1 && targetMapId == -1) || m !in fields ==> t == Target(None, NotFound))
                && (!(m == -1 && targetMapId == -1) && m in fields ==>
                      && FindChannel(View(), m, 0).Some?
                      && t == if MakeZoneId(m, 0) == currentZoneId then Target(None, SameZone)
                              else Target(FindChannel(View(), m, 0), NoReject))
    {
      assert MapIdOf(currentZoneId) in rooms ==> MapIdOf(currentZoneId) !in fields;
      hide TablesOk, CacheAgrees;
      var m, z := MapIdOf(currentZoneId), None;
      var picked := None;
      if targetChannel >= 0 {
        if m in rooms {
          if !isAdmin {
            return Target(None, NotAllowed);
          }
          z := Get(rooms[m].channels, targetChannel);
        } else if m in fields {
          picked := Some(fields[m].table);
          z := Get(fields[m].table.channels, targetChannel);
        }
        Located(View(), m, targetChannel);
        if FindChannel(View(), m, targetChannel).Some? {
          ZoneIdDecodes(m, targetChannel);
        }
      } else {
        if !isAdmin {
          return Target(None, NotAllowed);
        }
        var wanted := targetMapId;
        if wanted == -1 {
          if random == -1 {
            return Target(None, NotFound);
          }
          wanted := random;
        }
        if wanted in fields {
          FirstIsOpen(wanted);
        }
        z := FindOrCreateChannel(wanted, isAdmin, order, setUp);
        if wanted in fields {
          Located(View(), wanted, 0);
          ZoneIdDecodes(wanted, 0);
        }
      }
      if z.None? {
        return Target(None, NotFound);
      }
      if zones[z.value].zoneId == currentZoneId {
        return Target(None, SameZone);
      }
      if picked.Some? && IsChannelFull(picked.value, z.value, isAdmin) {
        return Target(None, FullChannel);
      }
      return Target(z, NoReject);
    }
  }
}
