/** The cursors shown in one room: who owns them, and how they change hands. */
module Awareness {
  import opened AwarenessCodec
  import opened Wrappers

  const MAX_CLIENTS_PER_CONNECTION := 4

  type ClientId = nat
  type UserId = nat
  type Socket = nat

  datatype Peer = Peer(clock: nat, state: State, ws: Socket, user: UserId)

  type Peers = map<ClientId, Peer>

  // The socket a message came from and the login behind it.
  datatype Sender = Sender(ws: Socket, user: UserId, name: string)

  // --- stamping ---------------------------------------------------------------

  predicate IsHex(c: char) {
    '0' <= c <= '9' || 'a' <= c <= 'f' || 'A' <= c <= 'F'
  }

  // ^#[0-9a-fA-F]{6}$, where Python's $ also matches before a final newline.
  predicate IsColor(text: string) {
    && (|text| == 7 || (|text| == 8 && text[7] == '\n'))
    && text[0] == '#' && forall i :: 1 <= i < 7 ==> IsHex(text[i])
  }

  predicate KeepsColor(state: State) {
    ColorKey in state && state[ColorKey].Text? && IsColor(state[ColorKey].text)
  }

  predicate PassesThrough(key: Key, state: State) {
    key in state && (key.SelectionKey? || key.CursorKey? || (key.ColorKey? && KeepsColor(state)))
  }

  function CleanState(state: State, who: Sender): State {
    (map key | key in state && PassesThrough(key, state) :: state[key])
    [UserIdKey := Number(who.user)][UsernameKey := Text(who.name)]
  }

  /** What a cursor says about its owner is what the login says, whatever the client claims;
      cleaning again changes nothing. */
  lemma IdentityComesFromTheLogin(state: State, who: Sender, id: Value, name: Value)
    ensures CleanState(state, who)[UserIdKey] == Number(who.user)
    ensures CleanState(state, who)[UsernameKey] == Text(who.name)
    ensures CleanState(state[UserIdKey := id][UsernameKey := name], who) == CleanState(state, who)
    ensures CleanState(CleanState(state, who), who) == CleanState(state, who)
  {
    var claimed := state[UserIdKey := id][UsernameKey := name];
    assert forall key :: PassesThrough(key, claimed) <==> PassesThrough(key, state);
    var clean := CleanState(state, who);
    assert forall key :: PassesThrough(key, clean) <==> PassesThrough(key, state);
  }

  // --- accepting ------------------------------------------------------------------

  // The table, the sockets' count and the entries to relay, as an update is gone through.
  datatype Accepting = Accepting(peers: Peers, owned: int, relayed: seq<Entry>)

  function OwnedIds(peers: Peers, ws: Socket): set<ClientId> {
    set id | id in peers && peers[id].ws == ws
  }

  function Owned(peers: Peers, ws: Socket): nat {
    |OwnedIds(peers, ws)|
  }

  predicate Refused(a: Accepting, who: Sender, e: Entry) {
    if e.client in a.peers then a.peers[e.client].user != who.user || e.clock < a.peers[e.client].clock
    else e.state.None? || a.owned >= MAX_CLIENTS_PER_CONNECTION
  }

  function AcceptOne(a: Accepting, who: Sender, e: Entry): Accepting {
    if Refused(a, who, e) then a
    else
      match e.state
      case None =>
        Accepting(a.peers - {e.client}, if a.peers[e.client].ws == who.ws then a.owned - 1 else a.owned,
                  a.relayed + [e])
      case Some(state) =>
        var clean := CleanState(state, who);
        Accepting(a.peers[e.client := Peer(e.clock, clean, who.ws, who.user)],
                  if e.client in a.peers then a.owned else a.owned + 1,
                  a.relayed + [Entry(e.client, e.clock, Some(clean))])
  }

  function AcceptAll(a: Accepting, who: Sender, entries: seq<Entry>): Accepting
    decreases |entries|
  {
    if entries == [] then a else AcceptAll(AcceptOne(a, who, entries[0]), who, entries[1..])
  }

  function Starting(peers: Peers, ws: Socket): Accepting {
    Accepting(peers, Owned(peers, ws), [])
  }

  // The removals a dropped socket causes, by client id.
  function Gone(peers: Peers, ws: Socket): map<ClientId, Entry> {
    map id | id in peers && peers[id].ws == ws :: Entry(id, peers[id].clock + 1, None)
  }

  function Left(peers: Peers, ws: Socket): Peers {
    map id | id in peers && peers[id].ws != ws :: peers[id]
  }

  // Nothing said about a client.
  predicate Silent(entries: seq<Entry>, k: ClientId) {
    forall i :: 0 <= i < |entries| ==> entries[i].client != k
  }

  /** No update of another user changes, erases or relays anything about a cursor that is present. */
  lemma {:induction false} OthersCannotTouch(a: Accepting, who: Sender, entries: seq<Entry>, k: ClientId)
    requires k in a.peers && a.peers[k].user != who.user && Silent(a.relayed, k)
    ensures var after := AcceptAll(a, who, entries);
            k in after.peers && after.peers[k] == a.peers[k] && Silent(after.relayed, k)
    decreases |entries|
  {
    if entries == [] {
    } else {
      OthersCannotTouch(AcceptOne(a, who, entries[0]), who, entries[1..], k);
    }
  }

  // Every cursor carries its owner's id, and every relayed one the sender's.
  ghost predicate Stamped(peers: Peers) {
    forall id :: id in peers ==> UserIdKey in peers[id].state && peers[id].state[UserIdKey] == Number(peers[id].user)
  }

  ghost predicate StampedFor(entries: seq<Entry>, who: Sender) {
    forall i :: 0 <= i < |entries| && entries[i].state.Some? ==>
      CleanState(entries[i].state.value, who) == entries[i].state.value
  }

  /** Whatever is announced, the table and the relayed entries name the real users. */
  lemma {:induction false} AcceptKeepsStamps(a: Accepting, who: Sender, entries: seq<Entry>)
    requires Stamped(a.peers) && StampedFor(a.relayed, who)
    ensures Stamped(AcceptAll(a, who, entries).peers) && StampedFor(AcceptAll(a, who, entries).relayed, who)
    decreases |entries|
  {
    if entries == [] {
    } else {
      var e := entries[0];
      if e.state.Some? {
        IdentityComesFromTheLogin(e.state.value, who, Number(0), Text(""));
      }
      AcceptKeepsStamps(AcceptOne(a, who, e), who, entries[1..]);
    }
  }

  // --- how many cursors a connection gets ---------------------------------------------

  // An accepted announcement of a cursor that another socket holds.
  predicate TakesOver(a: Accepting, who: Sender, e: Entry) {
    !Refused(a, who, e) && e.state.Some? && e.client in a.peers && a.peers[e.client].ws != who.ws
  }

  function Takeovers(a: Accepting, who: Sender, entries: seq<Entry>): nat
    decreases |entries|
  {
    if entries == [] then 0
    else (if TakesOver(a, who, entries[0]) then 1 else 0) + Takeovers(AcceptOne(a, who, entries[0]), who, entries[1..])
  }

  lemma CountOne(a: Accepting, who: Sender, e: Entry)
    ensures var after := AcceptOne(a, who, e);
            Owned(after.peers, who.ws) - Owned(a.peers, who.ws)
            == after.owned - a.owned + (if TakesOver(a, who, e) then 1 else 0)
  {
    var before, after := OwnedIds(a.peers, who.ws), OwnedIds(AcceptOne(a, who, e).peers, who.ws);
    if Refused(a, who, e) {
      assert after == before;
    } else if e.state.Some? {
      assert after == before + {e.client};
    } else {
      assert after == before - {e.client};
    }
  }

  lemma {:induction false} CountAll(a: Accepting, who: Sender, entries: seq<Entry>, bound: int)
    requires a.owned <= bound && bound >= MAX_CLIENTS_PER_CONNECTION
    ensures var after := AcceptAll(a, who, entries);
            && Owned(after.peers, who.ws) - Owned(a.peers, who.ws)
               == after.owned - a.owned + Takeovers(a, who, entries)
            && after.owned <= bound
    decreases |entries|
  {
    if entries == [] {
    } else {
      CountOne(a, who, entries[0]);
      CountAll(AcceptOne(a, who, entries[0]), who, entries[1..], bound);
    }
  }

  /** After any update a connection has exactly the cursors counted, of which there are at most
      four or what it had, and one more for each takeover. */
  lemma CursorsAreCountedOrTakenOver(peers: Peers, who: Sender, entries: seq<Entry>)
    ensures var start := Starting(peers, who.ws);
            var after, before := AcceptAll(start, who, entries), Owned(peers, who.ws);
            && Owned(after.peers, who.ws) == after.owned + Takeovers(start, who, entries)
            && after.owned <= if before > MAX_CLIENTS_PER_CONNECTION then before else MAX_CLIENTS_PER_CONNECTION
  {
    var owned := Owned(peers, who.ws);
    CountAll(Starting(peers, who.ws), who, entries,
             if owned > MAX_CLIENTS_PER_CONNECTION then owned else MAX_CLIENTS_PER_CONNECTION);
  }

  /** An update brings a connection beyond four cursors by takeovers only, one each. */
  lemma OnlyTakeoversExceedFour(peers: Peers, who: Sender, entries: seq<Entry>)
    ensures var start := Starting(peers, who.ws);
            var bound := if Owned(peers, who.ws) > MAX_CLIENTS_PER_CONNECTION then Owned(peers, who.ws)
                         else MAX_CLIENTS_PER_CONNECTION;
            Owned(AcceptAll(start, who, entries).peers, who.ws) <= bound + Takeovers(start, who, entries)
  {
    CursorsAreCountedOrTakenOver(peers, who, entries);
  }

  /** A connection within the limit leaves it exactly by taking over a cursor when it has four. */
  lemma ExceedsFourExactly(peers: Peers, who: Sender, e: Entry)
    requires Owned(peers, who.ws) <= MAX_CLIENTS_PER_CONNECTION
    ensures Owned(AcceptAll(Starting(peers, who.ws), who, [e]).peers, who.ws) > MAX_CLIENTS_PER_CONNECTION
            <==> Owned(peers, who.ws) == MAX_CLIENTS_PER_CONNECTION && TakesOver(Starting(peers, who.ws), who, e)
  {
    var start := Starting(peers, who.ws);
    CountOne(start, who, e);
    assert AcceptAll(start, who, [e]) == AcceptOne(start, who, e);
  }

  /** And they do: a connection with four cursors takes over a fifth. */
  lemma TakeoverExceedsFour() returns (peers: Peers, who: Sender, e: Entry)
    ensures Owned(peers, who.ws) == 4
    ensures Owned(AcceptAll(Starting(peers, who.ws), who, [e]).peers, who.ws) == 5
  {
    who := Sender(1, 7, "ann");
    var mine, other := Peer(1, map[], 1, 7), Peer(1, map[], 2, 7);
    peers := map[0 := mine, 1 := mine, 2 := mine, 3 := mine, 4 := other];
    e := Entry(4, 2, Some(map[]));
    assert OwnedIds(peers, 1) == {0, 1, 2, 3};
    var start := Starting(peers, who.ws);
    CountOne(start, who, e);
    assert AcceptAll(start, who, [e]) == AcceptOne(start, who, e);
  }

  // --- the room's table ---------------------------------------------------------------

  class RoomAwareness {
    var peers: Peers

    constructor ()
      ensures peers == map[]
    {
      peers := map[];
    }

    /** `accept`. */
    method Accept(who: Sender, entries: seq<Entry>) returns (accepted: seq<Entry>)
      modifies this
      ensures var after := AcceptAll(Starting(old(peers), who.ws), who, entries);
              peers == after.peers && accepted == after.relayed
    {
      accepted := [];
      var owned: int := Owned(peers, who.ws);
      assert entries[0..] == entries;
      for i := 0 to |entries|
        invariant AcceptAll(Accepting(peers, owned, accepted), who, entries[i..]) ==
                  AcceptAll(Starting(old(peers), who.ws), who, entries)
      {
        assert entries[i..][0] == entries[i] && entries[i..][1..] == entries[i + 1..];
        var e := entries[i];
        var known := e.client in peers;
        if known {
          if peers[e.client].user != who.user || e.clock < peers[e.client].clock {
            continue;
          }
        }
        if e.state.None? {
          if !known {
            continue;
          }
          if peers[e.client].ws == who.ws {
            owned := owned - 1;
          }
          peers := peers - {e.client};
          accepted := accepted + [e];
          continue;
        }
        if !known {
          if owned >= MAX_CLIENTS_PER_CONNECTION {
            continue;
          }
          owned := owned + 1;
        }
        var clean := CleanState(e.state.value, who);
        peers := peers[e.client := Peer(e.clock, clean, who.ws, who.user)];
        accepted := accepted + [Entry(e.client, e.clock, Some(clean))];
      }
    }

    /** `snapshot`: every cursor of the other sockets once, with its clock and state. */
    method Snapshot(exclude: Option<Socket>) returns (entries: seq<Entry>)
      ensures forall id :: id in peers && Some(peers[id].ws) != exclude ==>
                             Entry(id, peers[id].clock, Some(peers[id].state)) in entries
      ensures forall e :: e in entries ==>
                            e.client in peers && Some(peers[e.client].ws) != exclude
                            && e == Entry(e.client, peers[e.client].clock, Some(peers[e.client].state))
      ensures forall i, j :: 0 <= i < j < |entries| ==> entries[i].client != entries[j].client
    {
      entries := [];
      var left := peers.Keys;
      while left != {}
        invariant left <= peers.Keys
        invariant forall id :: id in peers && id !in left && Some(peers[id].ws) != exclude ==>
                                 Entry(id, peers[id].clock, Some(peers[id].state)) in entries
        invariant forall e :: e in entries ==>
                                e.client in peers && e.client !in left && Some(peers[e.client].ws) != exclude
                                && e == Entry(e.client, peers[e.client].clock, Some(peers[e.client].state))
        invariant forall i, j :: 0 <= i < j < |entries| ==> entries[i].client != entries[j].client
        decreases |left|
      {
        var id :| id in left;
        left := left - {id};
        if Some(peers[id].ws) != exclude {
          entries := entries + [Entry(id, peers[id].clock, Some(peers[id].state))];
        }
      }
    }

    /** `drop`: the socket's cursors leave the table, each announced gone once, one tick on. */
    method Drop(ws: Socket) returns (gone: seq<Entry>)
      modifies this
      ensures peers == Left(old(peers), ws)
      ensures |gone| == |Gone(old(peers), ws)|
      ensures forall id :: id in Gone(old(peers), ws) ==> Gone(old(peers), ws)[id] in gone
      ensures forall e :: e in gone ==> e.client in Gone(old(peers), ws) && e == Gone(old(peers), ws)[e.client]
    {
      gone := [];
      ghost var before := peers;
      ghost var told: set<ClientId> := {};
      var left := peers.Keys;
      while left != {}
        invariant left <= before.Keys && told <= Gone(before, ws).Keys
        invariant forall id :: id in before ==> (id in told <==> id !in left && before[id].ws == ws)
        invariant forall id :: id in peers <==> id in before && id !in told
        invariant forall id :: id in peers ==> peers[id] == before[id]
        invariant |gone| == |told|
        invariant forall id :: id in told ==> Gone(before, ws)[id] in gone
        invariant forall e :: e in gone ==> e.client in told && e == Gone(before, ws)[e.client]
        decreases |left|
      {
        var id :| id in left;
        left := left - {id};
        if peers[id].ws == ws {
          gone := gone + [Entry(id, peers[id].clock + 1, None)];
          peers := peers - {id};
          told := told + {id};
        }
      }
      assert told == Gone(before, ws).Keys;
      assert peers == Left(before, ws);
    }
  }
}
