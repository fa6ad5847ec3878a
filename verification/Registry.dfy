/** The state the connection tasks of the signaling server share, and what each section under
    a lock does to it. */
module Registry {
  import opened Prelude
  import opened Signaling

  datatype Config = Config(maxConnections: nat, maxRequests: nat)

  type Room = map<Uuid, ClientInfoWithoutId>
  type Rooms = map<string, Room>
  type Counts = map<string, nat>

  const TOO_MANY_REQUESTS: u16 := 429

  /** The members of a group; a group without an entry has none. */
  function Members(rooms: Rooms, group: string): Room
  {
    if group in rooms then rooms[group] else map[]
  }

  function Count(counts: Counts, group: string): nat
  {
    if group in counts then counts[group] else 0
  }

  /** The order in which a hash map is walked is unspecified: any listing of its keys. */
  predicate Lists(order: seq<Uuid>, room: Room)
  {
    && (forall i, j :: 0 <= i < j < |order| ==> order[i] != order[j])
    && (forall id :: id in order ==> id in room)
    && (forall id :: id in room ==> id in order)
  }

  function Infos(order: seq<Uuid>, room: Room): (peers: seq<ClientInfo>)
    requires forall id :: id in order ==> id in room
    ensures |peers| == |order|
    ensures forall i :: 0 <= i < |order| ==> peers[i] == ClientInfo(order[i], room[order[i]])
  {
    seq(|order|, i requires 0 <= i < |order| => ClientInfo(order[i], room[order[i]]))
  }

  // ----- The sections -----

  /** One request against the hourly budget of a group. */
  function Charge(cfg: Config, counts: Counts, group: string): (Counts, bool)
  {
    var count := Count(counts, group);
    if count >= cfg.maxRequests then (counts[group := count], false) else (counts[group := count + 1], true)
  }

  /** The shared state after a connect, and the members that were there before if it was let in. */
  datatype Entry = Entry(rooms: Rooms, counts: Counts, others: Option<Room>)

  function Enter(cfg: Config, rooms: Rooms, counts: Counts, group: string, id: Uuid, info: ClientInfoWithoutId): Entry
  {
    var room := Members(rooms, group);
    if |room| >= cfg.maxConnections then Entry(rooms[group := room], counts, None)
    else
      var (counts', ok) := Charge(cfg, counts, group);
      if ok then Entry(rooms[group := room[id := info]], counts', Some(room))
      else Entry(rooms[group := room], counts', None)
  }

  /** The shared state after a member changed its own description, and whom to tell. */
  function Amend(rooms: Rooms, group: string, id: Uuid, info: ClientInfoWithoutId): (Rooms, Room)
  {
    var room := Members(rooms, group);
    if id in room then (rooms[group := room[id := info]], room - {id}) else (rooms, map[])
  }

  /** The shared state after a disconnect, and whom to tell. */
  function Leave(rooms: Rooms, group: string, id: Uuid): (Rooms, Room)
  {
    if group !in rooms then (rooms, map[])
    else
      var room := rooms[group] - {id};
      if room == map[] then (rooms - {group}, map[]) else (rooms[group := room], room)
  }

  /** Only the newcomer is added, only to its own group, and only below both limits. */
  lemma EnterAdds(cfg: Config, rooms: Rooms, counts: Counts, group: string, id: Uuid, info: ClientInfoWithoutId)
    ensures var e := Enter(cfg, rooms, counts, group, id, info);
      && (e.others.Some? <==> |Members(rooms, group)| < cfg.maxConnections && Count(counts, group) < cfg.maxRequests)
      && (e.others.Some? ==> e.others.value == Members(rooms, group))
      && (forall g :: Members(e.rooms, g)
            == if g == group && e.others.Some? then Members(rooms, g)[id := info] else Members(rooms, g))
      && (forall g :: Count(e.counts, g) == Count(counts, g) + if g == group && e.others.Some? then 1 else 0)
  {
  }

  lemma AmendKeeps(rooms: Rooms, group: string, id: Uuid, info: ClientInfoWithoutId)
    ensures var (rooms', told) := Amend(rooms, group, id, info);
      && (forall g :: Members(rooms', g)
            == if g == group && id in Members(rooms, g) then Members(rooms, g)[id := info] else Members(rooms, g))
      && told == if id in Members(rooms, group) then Members(rooms, group) - {id} else map[]
  {
  }

  lemma LeaveRemoves(rooms: Rooms, group: string, id: Uuid)
    ensures var (rooms', told) := Leave(rooms, group, id);
      && (forall g :: Members(rooms', g) == if g == group then Members(rooms, g) - {id} else Members(rooms, g))
      && told == Members(rooms, group) - {id}
  {
  }

  // ----- The sections as the tasks run them -----

  /** The keys of a map in some order. */
  method Walk(room: Room) returns (order: seq<Uuid>)
    ensures Lists(order, room)
  {
    order := [];
    var rest := room.Keys;
    while rest != {}
      invariant rest <= room.Keys
      invariant forall i, j :: 0 <= i < j < |order| ==> order[i] != order[j]
      invariant forall id :: id in order <==> id in room.Keys - rest
      decreases rest
    {
      var id :| id in rest;
      assert id !in order;
      order, rest := order + [id], rest - {id};
    }
  }

  class SharedState {
    const cfg: Config
    var rooms: Rooms
    var counts: Counts

    constructor (cfg: Config)
      ensures this.cfg == cfg && rooms == map[] && counts == map[]
    {
      this.cfg := cfg;
      rooms, counts := map[], map[];
    }

    method ProtectRequestCount(group: string) returns (ok: bool)
      modifies this`counts
      ensures (counts, ok) == Charge(cfg, old(counts), group)
    {
      if group !in counts {
        counts := counts[group := 0];
      }
      if counts[group] >= cfg.maxRequests {
        assert counts == old(counts)[group := counts[group]];
        return false;
      }
      counts := counts[group := counts[group] + 1];
      assert counts == old(counts)[group := Count(old(counts), group) + 1];
      return true;
    }

    /** The entry is made before either limit is looked at, so a refused first connect leaves
        an empty room behind. */
    method Connect(group: string, id: Uuid, info: ClientInfoWithoutId)
      returns (admitted: bool, targets: seq<Uuid>, peers: seq<ClientInfo>)
      modifies this
      ensures var e := Enter(cfg, old(rooms), old(counts), group, id, info);
        && rooms == e.rooms && counts == e.counts && admitted == e.others.Some?
        && (admitted ==> Lists(targets, e.others.value) && peers == Infos(targets, e.others.value))
        && (!admitted ==> targets == [] && peers == [])
    {
      targets, peers := [], [];
      if group !in rooms {
        rooms := rooms[group := map[]];
      }
      if |rooms[group]| >= cfg.maxConnections {
        return false, [], [];
      }
      admitted := ProtectRequestCount(group);
      if !admitted {
        return;
      }
      targets := Walk(rooms[group]);
      peers := Infos(targets, rooms[group]);
      rooms := rooms[group := rooms[group][id := info]];
    }

    method UpdateInfo(group: string, id: Uuid, info: ClientInfoWithoutId) returns (targets: seq<Uuid>)
      modifies this`rooms
      ensures rooms == Amend(old(rooms), group, id, info).0
      ensures Lists(targets, Amend(old(rooms), group, id, info).1)
    {
      targets := [];
      if group in rooms && id in rooms[group] {
        rooms := rooms[group := rooms[group][id := info]];
        targets := Walk(rooms[group] - {id});
      }
    }

    method Find(group: string, target: Uuid) returns (found: bool)
      ensures found <==> target in Members(rooms, group)
    {
      found := group in rooms && target in rooms[group];
    }

    method Disconnect(group: string, id: Uuid) returns (targets: seq<Uuid>)
      modifies this`rooms
      ensures rooms == Leave(old(rooms), group, id).0
      ensures Lists(targets, Leave(old(rooms), group, id).1)
    {
      targets := [];
      if group in rooms {
        rooms := rooms[group := rooms[group] - {id}];
        if rooms[group] == map[] {
          rooms := rooms - {group};
        } else {
          targets := Walk(rooms[group]);
        }
      }
    }

    method Clear()
      modifies this`counts
      ensures counts == map[]
    {
      counts := map[];
    }
  }
}
