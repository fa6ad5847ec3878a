/** Under what description a client shows the others in its room. */
module ListEntries {
  import opened Prelude
  import opened Signaling
  import opened Registry
  import opened RoomServer
  import opened Isolation
  import opened Convergence
  import opened ClientList
  import opened Descriptions

  /** Entries stand under fingerprint and id; a new one replaces that with the same two. */
  predicate Replaces(x: ClientInfo, c: ClientInfo) { x.id == c.id && x.info.token == c.info.token }

  function Register(list: set<ClientInfo>, x: ClientInfo): set<ClientInfo>
  {
    (set c | c in list && !Replaces(x, c)) + {x}
  }

  /** The entries after the messages of a queue, in order. */
  function Listed(inbox: seq<WsServerMessage>): set<ClientInfo>
  {
    if inbox == [] then {}
    else
      var before := inbox[..|inbox| - 1];
      match inbox[|inbox| - 1]
      case Hello(_, peers) =>
        (set c | c in Listed(before) && forall x :: x in peers ==> !Replaces(x, c))
        + set i | 0 <= i < |peers| :: peers[i]
      case Join(x) => if Greeted(before) then Register(Listed(before), x) else Listed(before)
      case Update(x) => if Greeted(before) then Register(Listed(before), x) else Listed(before)
      case Left(p) => set c | c in Listed(before) && c.id != p
      case _ => Listed(before)
  }

  /** Message `j` makes this entry. */
  predicate Enters(inbox: seq<WsServerMessage>, j: nat, x: ClientInfo)
  {
    j < |inbox| &&
    match inbox[j]
    case Hello(_, peers) => x in peers
    case Join(y) => y == x && Greeted(inbox[..j])
    case Update(y) => y == x && Greeted(inbox[..j])
    case _ => false
  }

  /** A later message makes another entry in its place. */
  ghost predicate Replaced(inbox: seq<WsServerMessage>, j: nat, x: ClientInfo)
  {
    exists k, y :: j < k < |inbox| && Enters(inbox, k, y) && Replaces(y, x) && y != x
  }

  ghost predicate Stays(inbox: seq<WsServerMessage>, j: nat, x: ClientInfo)
  {
    Enters(inbox, j, x) && Left(x.id) !in inbox[j..] && !Replaced(inbox, j, x)
  }

  lemma EntersBefore(inbox: seq<WsServerMessage>, j: nat, x: ClientInfo)
    requires inbox != [] && j < |inbox| - 1
    ensures Enters(inbox[..|inbox| - 1], j, x) <==> Enters(inbox, j, x)
  {
    assert inbox[..|inbox| - 1][..j] == inbox[..j];
  }

  /** The last message does not take the entry away. */
  ghost predicate Spares(inbox: seq<WsServerMessage>, x: ClientInfo)
  {
    inbox != [] && inbox[|inbox| - 1] != Left(x.id)
    && forall y :: Enters(inbox, |inbox| - 1, y) && Replaces(y, x) ==> y == x
  }

  lemma StaysBefore(inbox: seq<WsServerMessage>, j: nat, x: ClientInfo)
    requires inbox != [] && j < |inbox| - 1
    ensures Stays(inbox, j, x) <==> Stays(inbox[..|inbox| - 1], j, x) && Spares(inbox, x)
  {
    hide Enters;
    var before, n := inbox[..|inbox| - 1], |inbox| - 1;
    assert inbox[j..] == before[j..] + [inbox[n]];
    forall k: nat, y | k < n ensures Enters(before, k, y) <==> Enters(inbox, k, y) {
      EntersBefore(inbox, k, y);
    }
    if Replaced(before, j, x) {
      var k, y :| j < k < |before| && Enters(before, k, y) && Replaces(y, x) && y != x;
      assert Enters(inbox, k, y);
    }
    if Replaced(inbox, j, x) {
      var k, y :| j < k < |inbox| && Enters(inbox, k, y) && Replaces(y, x) && y != x;
      assert k < n ==> Enters(before, k, y);
    }
  }

  /** Which entries are on the list, for any queue at all. */
  lemma {:induction false} ListedExactly(inbox: seq<WsServerMessage>, x: ClientInfo)
    ensures x in Listed(inbox) <==> exists j: nat :: Stays(inbox, j, x)
  {
    if inbox != [] {
      var before, n := inbox[..|inbox| - 1], |inbox| - 1;
      ListedExactly(before, x);
      assert inbox[..n] == before && inbox[n..] == [inbox[n]];
      assert Stays(inbox, n, x) <==> Enters(inbox, n, x);
      if x in Listed(before) && Spares(inbox, x) {
        var j: nat :| Stays(before, j, x);
        StaysBefore(inbox, j, x);
      }
      if j: nat :| j < n && Stays(inbox, j, x) {
        StaysBefore(inbox, j, x);
      }
      ListedStep(inbox, x);
    }
  }

  lemma ListedStep(inbox: seq<WsServerMessage>, x: ClientInfo)
    requires inbox != []
    ensures x in Listed(inbox) <==>
      Enters(inbox, |inbox| - 1, x) || (x in Listed(inbox[..|inbox| - 1]) && Spares(inbox, x))
  {
    var before, n := inbox[..|inbox| - 1], |inbox| - 1;
    assert inbox[..n] == before;
    var m := inbox[n];
    match m
    case Hello(_, peers) =>
      assert (x in set i | 0 <= i < |peers| :: peers[i]) <==> x in peers;
    case Join(y) => assert Greeted(before) ==> Enters(inbox, n, y);
    case Update(y) => assert Greeted(before) ==> Enters(inbox, n, y);
    case _ =>
  }

  /** The ids on the list are those that are shown. */
  lemma {:induction false} ListedIds(inbox: seq<WsServerMessage>, p: Uuid)
    ensures p in Shown(inbox) <==> exists info :: ClientInfo(p, info) in Listed(inbox)
  {
    if inbox != [] {
      var before, m := inbox[..|inbox| - 1], inbox[|inbox| - 1];
      ListedIds(before, p);
      match m
      case Hello(_, peers) => HelloIds(before, peers, p);
      case Join(x) => RegisterIds(Listed(before), x, p);
      case Update(x) => RegisterIds(Listed(before), x, p);
      case _ =>
    }
  }

  lemma RegisterIds(list: set<ClientInfo>, x: ClientInfo, p: Uuid)
    ensures (exists info :: ClientInfo(p, info) in Register(list, x)) <==>
      p == x.id || exists info :: ClientInfo(p, info) in list
  {
    assert ClientInfo(x.id, x.info) in Register(list, x);
    if info :| ClientInfo(p, info) in list && p != x.id {
      assert ClientInfo(p, info) in Register(list, x);
    }
  }

  lemma HelloIds(before: seq<WsServerMessage>, peers: seq<ClientInfo>, p: Uuid)
    ensures var after := (set c | c in Listed(before) && forall x :: x in peers ==> !Replaces(x, c))
        + set i | 0 <= i < |peers| :: peers[i];
      (exists info :: ClientInfo(p, info) in after) <==>
        p in Ids(peers) || exists info :: ClientInfo(p, info) in Listed(before)
  {
    var kept := set c | c in Listed(before) && forall x :: x in peers ==> !Replaces(x, c);
    var named := set i | 0 <= i < |peers| :: peers[i];
    if p in Ids(peers) {
      var i :| 0 <= i < |peers| && peers[i].id == p;
      assert ClientInfo(p, peers[i].info) in kept + named;
    }
    if info :| ClientInfo(p, info) in Listed(before) && p !in Ids(peers) {
      assert ClientInfo(p, info) in kept + named;
    }
    if info :| ClientInfo(p, info) in named {
      assert p in Ids(peers);
    }
  }

  // ----- When an entry is right -----

  /** An update stands before the greeting, none behind it, and the greeting says otherwise. */
  ghost predicate Stale(inbox: seq<WsServerMessage>, p: Uuid)
  {
    exists h, info ::
      && 0 <= h < |inbox| && inbox[h].Hello? && ClientInfo(p, info) in inbox[h].peers
      && (forall k :: h < k < |inbox| ==> !Updates(inbox[k], p))
      && LastUpdate(inbox, p).Some? && LastUpdate(inbox, p).value != info
  }

  /** The client is entered under two fingerprints. */
  ghost predicate Retokened(inbox: seq<WsServerMessage>, p: Uuid)
  {
    exists j, k: nat, i, i' ::
      Enters(inbox, j, ClientInfo(p, i)) && Enters(inbox, k, ClientInfo(p, i')) && i.token != i'.token
  }

  /** What a client that has not left is entered under, under each fingerprint once. */
  lemma EntryStands(inbox: seq<WsServerMessage>, j: nat, x: ClientInfo) returns (y: ClientInfo)
    requires Enters(inbox, j, x) && Left(x.id) !in inbox
    ensures y in Listed(inbox) && Replaces(y, x)
    decreases |inbox| - j
  {
    if Replaced(inbox, j, x) {
      var k, z :| j < k < |inbox| && Enters(inbox, k, z) && Replaces(z, x) && z != x;
      y := EntryStands(inbox, k, z);
    } else {
      y := x;
      assert Left(x.id) !in inbox[j..];
      assert Stays(inbox, j, x);
      ListedExactly(inbox, x);
    }
  }

  lemma EntersTells(inbox: seq<WsServerMessage>, j: nat, x: ClientInfo)
    requires Enters(inbox, j, x) && !inbox[j].Update?
    ensures Tells(inbox[j], Arrived(x.id)) > 0 && Announces(inbox[j], x.id, x.info) && AnnouncedIn(inbox, x.id, x.info)
  {
    if inbox[j].Hello? {
      var peers := inbox[j].peers;
      var i :| 0 <= i < |peers| && peers[i] == x;
      OccursIn(peers, x.id);
    }
  }

  /** A queue as one client sees it about another that stays: announced once, updates behind,
      and the last word being `info`. */
  ghost predicate Account(inbox: seq<WsServerMessage>, p: Uuid, info: Info)
  {
    && InOrder(inbox, p) && JoinFirst(inbox, p) && In(inbox, Arrived(p)) == 1 && Left(p) !in inbox
    && match LastUpdate(inbox, p)
       case Some(last) => last == info
       case None => forall i :: AnnouncedIn(inbox, p, i) ==> i == info
  }

  /** The one announcement of the client enters it once. */
  lemma OneAnnouncement(inbox: seq<WsServerMessage>, j: nat, k: nat, x: ClientInfo, y: ClientInfo)
    requires In(inbox, Arrived(x.id)) == 1 && y.id == x.id
    requires Enters(inbox, j, x) && Enters(inbox, k, y) && !inbox[j].Update? && !inbox[k].Update?
    ensures j == k && x == y
  {
    EntersTells(inbox, j, x);
    EntersTells(inbox, k, y);
    SaidTwice(inbox, j, k, Arrived(x.id));
    TellsIsIn(inbox, j, Arrived(x.id));
    if inbox[j].Hello? && x != y {
      OccursTwice(inbox[j].peers, x, y);
    }
  }

  lemma {:induction false} OccursTwice(peers: seq<ClientInfo>, x: ClientInfo, y: ClientInfo)
    requires x in peers && y in peers && x != y && x.id == y.id
    ensures Occurs(peers, x.id) >= 2
  {
    assert peers == [peers[0]] + peers[1..];
    if peers[0] == x || peers[0] == y {
      var other := if peers[0] == x then y else x;
      var i :| 0 <= i < |peers[1..]| && peers[1..][i] == other;
      OccursIn(peers[1..], x.id);
    } else {
      OccursTwice(peers[1..], x, y);
    }
  }

  /** An entry that is still there says the last word, unless it is stale or has a twin. */
  lemma EntryIsRight(inbox: seq<WsServerMessage>, p: Uuid, info: Info, j: nat, i: Info)
    requires Account(inbox, p, info) && !Stale(inbox, p) && !Retokened(inbox, p)
    requires Stays(inbox, j, ClientInfo(p, i))
    ensures i == info
  {
    var x := ClientInfo(p, i);
    if LastUpdate(inbox, p).None? {
      NoUpdate(inbox, p);
      assert !Updates(inbox[j], p);
      EntersTells(inbox, j, x);
    } else {
      var l := LastUpdateAt(inbox, p);
      var z := ClientInfo(p, info);
      if j == l {
      } else if Greeted(inbox[..l]) {
        assert Enters(inbox, l, z);
        BothEntered(inbox, p, j, l, i, info);
      } else {
        UngreetedUpdate(inbox, p, j, l, i);
      }
    }
  }

  /** The last update stands behind the greeting. */
  lemma BothEntered(inbox: seq<WsServerMessage>, p: Uuid, j: nat, l: nat, i: Info, info: Info)
    requires InOrder(inbox, p) && In(inbox, Arrived(p)) == 1 && !Retokened(inbox, p)
    requires Stays(inbox, j, ClientInfo(p, i)) && Enters(inbox, l, ClientInfo(p, info)) && inbox[l].Update?
    requires Greeted(inbox[..l]) && j != l && forall k :: l < k < |inbox| ==> !Updates(inbox[k], p)
    ensures i == info
  {
    if j < l {
      assert i.token == info.token;
      assert Replaces(ClientInfo(p, info), ClientInfo(p, i));
    } else {
      assert About(inbox[l], p);
      EntersTells(inbox, j, ClientInfo(p, i));
      NotTwice(inbox, l, j, Arrived(p));
    }
  }

  /** What is said once is not said again. */
  lemma NotTwice(inbox: seq<WsServerMessage>, l: nat, j: nat, n: News)
    requires l <= j < |inbox| && In(inbox, n) == 1 && In(inbox[..l], n) == 1
    ensures Tells(inbox[j], n) == 0
  {
    TellsIsIn(inbox, j, n);
    InGrows(inbox[..j], l, n);
    assert inbox[..j][..l] == inbox[..l];
  }

  lemma GreetedOn(inbox: seq<WsServerMessage>, j: nat, l: nat)
    requires j < |inbox| && l < |inbox|
    ensures j <= l && Greeted(inbox[..j]) ==> Greeted(inbox[..l])
    ensures j < l && inbox[j].Hello? ==> Greeted(inbox[..l])
  {
    if j <= l && Greeted(inbox[..j]) {
      var k :| 0 <= k < j && inbox[..j][k].Hello?;
      assert inbox[..l][k].Hello?;
    }
    if j < l && inbox[j].Hello? {
      assert inbox[..l][j].Hello?;
    }
  }

  /** All updates stand before the greeting. */
  lemma UngreetedUpdate(inbox: seq<WsServerMessage>, p: Uuid, j: nat, l: nat, i: Info)
    requires JoinFirst(inbox, p) && !Stale(inbox, p)
    requires l < |inbox| && Updates(inbox[l], p) && !Greeted(inbox[..l])
    requires LastUpdate(inbox, p) == Some(inbox[l].peer.info)
    requires forall k :: l < k < |inbox| ==> !Updates(inbox[k], p)
    requires Enters(inbox, j, ClientInfo(p, i))
    ensures i == inbox[l].peer.info
  {
    hide Greeted;
    GreetedOn(inbox, j, l);
  }

  /** What is shown of a client that has been announced and has not left is its one true
      description, exactly unless its entry is stale or there are two. */
  lemma EntriesRightExactly(inbox: seq<WsServerMessage>, p: Uuid, info: Info)
    requires Account(inbox, p, info)
    ensures (forall i :: ClientInfo(p, i) in Listed(inbox) ==> i == info)
      <==> !Stale(inbox, p) && !Retokened(inbox, p)
  {
    hide Enters, Listed, Account;
    if !Stale(inbox, p) && !Retokened(inbox, p) {
      forall i | ClientInfo(p, i) in Listed(inbox) ensures i == info {
        ListedExactly(inbox, ClientInfo(p, i));
        var j: nat :| Stays(inbox, j, ClientInfo(p, i));
        EntryIsRight(inbox, p, info, j, i);
      }
    } else if Retokened(inbox, p) {
      TwoEntries(inbox, p, info);
    } else {
      StaleEntry(inbox, p, info);
    }
  }

  lemma TwoEntries(inbox: seq<WsServerMessage>, p: Uuid, info: Info)
    requires Account(inbox, p, info) && Retokened(inbox, p)
    ensures exists i :: ClientInfo(p, i) in Listed(inbox) && i != info
  {
    hide Enters, Listed, InOrder, JoinFirst;
    var j, k, i, i' :|
      Enters(inbox, j, ClientInfo(p, i)) && Enters(inbox, k, ClientInfo(p, i')) && i.token != i'.token;
    var x := EntryStands(inbox, j, ClientInfo(p, i));
    var y := EntryStands(inbox, k, ClientInfo(p, i'));
    assert x == ClientInfo(p, x.info) && y == ClientInfo(p, y.info) && x.info != y.info;
  }

  lemma StaleEntry(inbox: seq<WsServerMessage>, p: Uuid, info: Info)
    requires Account(inbox, p, info) && Stale(inbox, p)
    ensures exists i :: ClientInfo(p, i) in Listed(inbox) && i != info
  {
    hide Listed, InOrder, JoinFirst;
    var h, i :|
      && 0 <= h < |inbox| && inbox[h].Hello? && ClientInfo(p, i) in inbox[h].peers
      && (forall k :: h < k < |inbox| ==> !Updates(inbox[k], p))
      && LastUpdate(inbox, p).Some? && LastUpdate(inbox, p).value != i;
    var x := ClientInfo(p, i);
    if Replaced(inbox, h, x) {
      var k, y :| h < k < |inbox| && Enters(inbox, k, y) && Replaces(y, x) && y != x;
      OneAnnouncement(inbox, h, k, x, y);
    }
    assert Left(p) !in inbox[h..];
    assert Stays(inbox, h, x);
    ListedExactly(inbox, x);
  }

  /** With nothing on its way between them, a listening client shows another one in its room
      under its description, and under no other, exactly if it shows it at all, has not been
      greeted over a newer update, and has never known it under two fingerprints. */
  lemma DescriptionRightExactly(cfg: Config, run: seq<Step>, s: State, o: Uuid, p: Uuid)
    requires After(cfg, run) == Some(s) && SameGroup(s.conns, o, p) && o != p
    requires Listens(s.conns[o]) && NothingInFlight(s.conns, o) && Present(s.conns[p]) && s.conns[p].reader == Idle
    ensures p in Members(s.rooms, Group(s.conns[o]))
    ensures var inbox := s.conns[o].inbox;
      var info := Members(s.rooms, Group(s.conns[o]))[p];
      (forall i :: ClientInfo(p, i) in Listed(inbox) <==> i == info)
        <==> !Overlooked(inbox, p) && !Stale(inbox, p) && !Retokened(inbox, p)
  {
    hide After, Members, Group, Listed, Overlooked, Revived, Stale, Retokened, InOrder, JoinFirst;
    hide LastUpdate, AnnouncedIn;
    var inbox := s.conns[o].inbox;
    LastWordIsCurrent(cfg, run, s, o, p);
    RoomConvergence(cfg, run, s, o, p);
    InOrderAtEnd(cfg, run, s, o, p);
    JoinsFirstAtEnd(cfg, run, s, o, p);
    LeftIsIn(inbox, p);
    StayerShown(inbox, p);
    ListedIds(inbox, p);
    assert Group(s.conns[o]) == Group(s.conns[p]);
    var info := Members(s.rooms, Group(s.conns[o]))[p];
    EntriesRightExactly(inbox, p, info);
    if p in Shown(inbox) {
      var i :| ClientInfo(p, i) in Listed(inbox);
    } else {
      assert ClientInfo(p, info) !in Listed(inbox);
    }
  }

  lemma JoinsFirstAtEnd(cfg: Config, run: seq<Step>, s: State, o: Uuid, p: Uuid)
    requires After(cfg, run) == Some(s) && o in s.conns
    ensures JoinFirst(s.conns[o].inbox, p)
  {
    hide Base, AllCurrent, JoinFirst;
    AlwaysCurrent(cfg, run, s);
  }
}
