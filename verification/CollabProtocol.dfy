/**
 * The whole system of one file: a room, any number of tabs, a FIFO link per
 * socket, and every interleaving of edits, deliveries, restores, drops,
 * reconnects, checkpoints and restarts.
 */
module CollabProtocol {
  import opened Wrappers
  import opened CollabClient
  import opened CollabRoom

  type TabId = nat

  // One socket's life: whether its member may edit, the epoch it was
  // registered in, the updates on their way up, and the updates refused.
  datatype Link = Link(editor: bool, joined: Option<nat>, up: seq<Update>, refused: seq<Update>)

  datatype Tab = Tab(client: Client, sock: ConnId)

  // `stored` is the document in the latest checkpoint.
  datatype System = System(
    room: Room,
    stored: Update,
    links: map<ConnId, Link>,
    tabs: map<TabId, Tab>,
    next: ConnId)

  datatype Action =
    | OpenTab(tab: TabId, role: bool)
    | SocketOpens(tab: TabId)
    | SocketCloses(tab: TabId, refused: bool)
    | SocketStartsClosing(tab: TabId)
    | Reconnects(tab: TabId, role: bool)
    | Edits(tab: TabId, ops: Update)
    | Delivers(tab: TabId, missing: Update)
    | Flushes(tab: TabId, promise: nat)
    | FlushTimesOut(tab: TabId, promise: nat)
    | CloseTab(tab: TabId)
    | Joins(conn: ConnId)
    | Serves(conn: ConnId)
    | Notifies(conn: ConnId)
    | Detaches(conn: ConnId)
    | Restores(ops: Update)
    | Checkpoints
    | Reloads

  function Out(s: System, id: ConnId): seq<Frame> {
    Queue(s.room.outgoing, id)
  }

  ghost predicate Enabled(s: System, a: Action) {
    match a
    case OpenTab(t, _) => t !in s.tabs
    case SocketOpens(t) => t in s.tabs && s.tabs[t].client.ready.Opening?
    case SocketCloses(t, _) => t in s.tabs && !s.tabs[t].client.ready.Closed?
    case SocketStartsClosing(t) => t in s.tabs && s.tabs[t].client.ready.Open?
    case Reconnects(t, _) => t in s.tabs && s.tabs[t].client.retry
    case Edits(t, _) => t in s.tabs
    case Delivers(t, missing) =>
      t in s.tabs && s.tabs[t].client.ready.Open? && |Out(s, s.tabs[t].sock)| > 0 &&
      var f := Out(s, s.tabs[t].sock)[0];
      f.Doc? ==> IsDiff(missing, s.tabs[t].client.doc + f.ops, f.ops)
    case Flushes(t, _) => t in s.tabs
    case FlushTimesOut(t, _) => t in s.tabs
    case CloseTab(t) => t in s.tabs
    case Joins(id) => id in s.links && s.links[id].joined.None?
    case Serves(id) => id in s.room.members && id in s.links && |s.links[id].up| > 0
    case Notifies(id) => id in s.room.members
    case Detaches(id) => id in s.room.members
    case Restores(_) => true
    case Checkpoints => true
    case Reloads => true
  }

  // A tab ran a listener that gave updates to its socket.
  function TabTurn(s: System, t: TabId, turn: Turn): System
    requires t in s.tabs && s.tabs[t].sock in s.links
  {
    var id := s.tabs[t].sock;
    var l := s.links[id];
    s.(tabs := s.tabs[t := Tab(turn.client, id)],
       links := s.links[id := l.(up := l.up + turn.sent)])
  }

  function TabOnly(s: System, t: TabId, c: Client): System
    requires t in s.tabs
  {
    s.(tabs := s.tabs[t := s.tabs[t].(client := c)])
  }

  function NewSocket(s: System, t: TabId, c: Client, role: bool): System {
    s.(tabs := s.tabs[t := Tab(c, s.next)],
       links := s.links[s.next := Link(role, None, [], [])],
       next := s.next + 1)
  }

  ghost function Next(s: System, a: Action): System
    requires WellFormed(s) && Enabled(s, a)
  {
    match a
    case OpenTab(t, role) => NewSocket(s, t, FRESH, role)
    case SocketOpens(t) => TabOnly(s, t, s.tabs[t].client.(ready := Open))
    case SocketCloses(t, refused) => TabOnly(s, t, OnClose(s.tabs[t].client, refused))
    case SocketStartsClosing(t) => TabOnly(s, t, s.tabs[t].client.(ready := Closing))
    case Reconnects(t, role) => NewSocket(s, t, Connect(s.tabs[t].client), role)
    case Edits(t, ops) => TabTurn(s, t, OnLocalUpdate(s.tabs[t].client, ops))
    case Delivers(t, missing) =>
      var id := s.tabs[t].sock;
      var f := Out(s, id)[0];
      var s' := TabTurn(s, t, OnFrame(s.tabs[t].client, f, missing));
      s'.(room := s.room.(outgoing := s.room.outgoing[id := Out(s, id)[1..]]))
    case Flushes(t, p) => TabOnly(s, t, Flush(s.tabs[t].client, p))
    case FlushTimesOut(t, p) => TabOnly(s, t, FlushTimeout(s.tabs[t].client, p))
    case CloseTab(t) => TabOnly(s, t, Close(s.tabs[t].client))
    case Joins(id) =>
      s.(room := Join(s.room, id), links := s.links[id := s.links[id].(joined := Some(s.room.epoch))])
    case Serves(id) =>
      var l := s.links[id];
      s.(room := Serve(s.room, id, l.editor, l.up[0]),
         links := s.links[id := l.(up := l.up[1..],
                                   refused := if l.editor then l.refused else l.refused + [l.up[0]])])
    case Notifies(id) => s.(room := s.room.(outgoing := Push(s.room.outgoing, id, Other)))
    case Detaches(id) => s.(room := Detach(s.room, id))
    case Restores(ops) => s.(room := Replace(s.room, ops))
    case Checkpoints => s.(stored := s.room.doc)
    case Reloads => s.(room := Reload(s.room, s.stored))
  }

  ghost predicate Init(s: System) {
    s.room == Room(s.stored, {}, map[], 0) && s.links == map[] && s.tabs == map[] && s.next == 0
  }

  // `t` follows from `s` by the actions `acts`.
  ghost predicate Runs(s: System, acts: seq<Action>, t: System)
    decreases |acts|
  {
    if acts == [] then s == t
    else WellFormed(s) && Enabled(s, acts[0]) && Runs(Next(s, acts[0]), acts[1..], t)
  }

  // Sockets are numbered in order of creation and belong to one tab each.
  ghost predicate WellFormed(s: System) {
    && (forall id: ConnId :: id in s.links <==> id < s.next)
    && (forall id :: id in s.room.outgoing ==> id in s.links)
    && s.room.members <= s.links.Keys
    && (forall t :: t in s.tabs ==> s.tabs[t].sock in s.links)
    && (forall t, u :: t in s.tabs && u in s.tabs && t != u ==> s.tabs[t].sock != s.tabs[u].sock)
  }

  // --- what a queue carries ------------------------------------------------

  function Carried(q: seq<Frame>): Update {
    if q == [] then {} else (if q[0].Doc? then q[0].ops else {}) + Carried(q[1..])
  }

  function Acks(q: seq<Frame>): nat {
    if q == [] then 0 else (if q[0].Ack? then 1 else 0) + Acks(q[1..])
  }

  function Union(us: seq<Update>): Update {
    if us == [] then {} else us[0] + Union(us[1..])
  }

  lemma {:induction false} QueueAppend(q: seq<Frame>, f: Frame)
    ensures Carried(q + [f]) == Carried(q) + (if f.Doc? then f.ops else {})
    ensures Acks(q + [f]) == Acks(q) + (if f.Ack? then 1 else 0)
  {
    if q == [] {
      assert q + [f] == [f] && [f][1..] == [];
    } else {
      assert (q + [f])[1..] == q[1..] + [f];
      QueueAppend(q[1..], f);
    }
  }

  lemma {:induction false} UnionAppend(us: seq<Update>, vs: seq<Update>)
    ensures Union(us + vs) == Union(us) + Union(vs)
  {
    if us == [] {
      assert us + vs == vs;
    } else {
      assert (us + vs)[1..] == us[1..] + vs;
      UnionAppend(us[1..], vs);
    }
  }

  // --- the invariant of one tab and its current socket ---------------------

  // Everything the invariant of a tab speaks about.
  datatype View = View(server: Update, epoch: nat, member: bool, link: Link, down: seq<Frame>, client: Client)

  function ViewOf(s: System, t: TabId): View
    requires t in s.tabs && s.tabs[t].sock in s.links
  {
    var id := s.tabs[t].sock;
    View(s.room.doc, s.room.epoch, id in s.room.members, s.links[id], Out(s, id), s.tabs[t].client)
  }

  // The socket was registered in the document the room holds now.
  ghost predicate Current(v: View) {
    v.link.joined == Some(v.epoch)
  }

  ghost predicate TabOk(v: View) {
    var c, l := v.client, v.link;
    // What the status line shows.
    && (c.synced && c.ready.Open? ==> c.status == Settled(c.unacked))
    && (!c.synced ==> !c.status.Synced? && !c.status.Syncing?)
    && (c.retry ==> c.ready.Closed? && c.status.Offline?)
    && (c.ready.Opening? ==> !c.synced)
    // `unacked` counts the updates on this socket with no acknowledgement consumed.
    && c.unacked == |l.up| + Acks(v.down) + |l.refused|
    && (!c.synced ==> c.unacked == 0)
    // The registration comes before everything else on the socket.
    && (v.member ==> Current(v))
    && (l.joined.None? ==> v.down == [] && !c.synced)
    && (l.joined.Some? ==> l.joined.value <= v.epoch)
    // Nothing the server holds is lost to the tab ...
    && (v.member ==> v.server <= c.doc + Carried(v.down))
    && (v.member && !c.synced ==> exists i :: 0 <= i < |v.down| && v.down[i].Doc?)
    && (Current(v) ==> Carried(v.down) <= v.server)
    // ... and nothing the tab holds is lost to the server.
    && Union(l.up) <= c.doc
    && (Current(v) && c.synced && c.ready.Open? ==> c.doc <= v.server + Union(l.up) + Union(l.refused))
  }

  // A socket that was not registered yet has received nothing.
  ghost predicate LinksOk(s: System) {
    forall id :: id in s.links && s.links[id].joined.None? ==> Out(s, id) == [] && id !in s.room.members
  }

  ghost predicate Inv(s: System) {
    && WellFormed(s)
    && LinksOk(s)
    && (forall t :: t in s.tabs ==> TabOk(ViewOf(s, t)))
  }

  // --- steps of the tab itself ---------------------------------------------

  lemma TurnKeeps(v: View, ops: Update)
    requires TabOk(v)
    ensures var t := OnLocalUpdate(v.client, ops);
            TabOk(v.(client := t.client, link := v.link.(up := v.link.up + t.sent)))
  {
    var t := OnLocalUpdate(v.client, ops);
    UnionAppend(v.link.up, t.sent);
    if t.sent != [] {
      assert Union([ops]) == ops + Union([]);
    } else {
      assert v.link.up + t.sent == v.link.up;
    }
  }

  lemma DeliveryKeeps(v: View, missing: Update)
    requires TabOk(v) && v.client.ready.Open? && |v.down| > 0
    requires v.down[0].Doc? ==> IsDiff(missing, v.client.doc + v.down[0].ops, v.down[0].ops)
    ensures var t := OnFrame(v.client, v.down[0], missing);
            TabOk(v.(client := t.client, down := v.down[1..], link := v.link.(up := v.link.up + t.sent)))
  {
    var t := OnFrame(v.client, v.down[0], missing);
    UnionAppend(v.link.up, t.sent);
    assert Union([missing]) == missing + Union([]);
    if t.sent == [] {
      assert v.link.up + t.sent == v.link.up;
    }
    if v.member && !t.client.synced {
      var i :| 0 <= i < |v.down| && v.down[i].Doc?;
      assert v.down[1..][i - 1].Doc?;
    }
    if !v.client.synced && v.down[0].Doc? {
      FirstFrameKeeps(v, missing);
    }
  }

  // The first document frame: the diff sent back is all the server lacks.
  lemma FirstFrameKeeps(v: View, missing: Update)
    requires TabOk(v) && v.client.ready.Open? && |v.down| > 0 && !v.client.synced && v.down[0].Doc?
    requires IsDiff(missing, v.client.doc + v.down[0].ops, v.down[0].ops)
    ensures v.link.up == [] && v.link.refused == []
    ensures var t := OnFrame(v.client, v.down[0], missing);
            && Union(v.link.up + t.sent) == missing
            && t.client.unacked == |t.sent|
            && t.client.status == Settled(t.client.unacked)
            && (Current(v) ==> t.client.doc <= v.server + missing)
  {
    var t := OnFrame(v.client, v.down[0], missing);
    assert v.link.up + t.sent == t.sent;
    assert Union([missing]) == missing + Union([]);
  }

  // The listeners that neither merge nor send anything.
  lemma ListenersKeep(v: View, promise: nat, refused: bool)
    requires TabOk(v)
    ensures v.client.ready.Opening? ==> TabOk(v.(client := v.client.(ready := Open)))
    ensures v.client.ready.Open? ==> TabOk(v.(client := v.client.(ready := Closing)))
    ensures !v.client.ready.Closed? ==> TabOk(v.(client := OnClose(v.client, refused)))
    ensures TabOk(v.(client := Close(v.client)))
    ensures TabOk(v.(client := Flush(v.client, promise)))
    ensures TabOk(v.(client := FlushTimeout(v.client, promise)))
  {
  }

  // --- steps of the server --------------------------------------------------

  // The document grows by an update that is queued for this tab too.
  lemma BroadcastKeeps(v: View, ops: Update)
    requires TabOk(v)
    ensures TabOk(v.(server := v.server + ops, down := if v.member then v.down + [Doc(ops)] else v.down))
  {
    QueueAppend(v.down, Doc(ops));
    if v.member && !v.client.synced {
      var i :| 0 <= i < |v.down| && v.down[i].Doc?;
      assert (v.down + [Doc(ops)])[i].Doc?;
    }
  }

  // The server takes this tab's own next update.
  lemma ServeKeeps(v: View)
    requires TabOk(v) && v.member && |v.link.up| > 0
    ensures var u := v.link.up[0];
            TabOk(if v.link.editor
                  then v.(server := v.server + u, down := v.down + [Ack], link := v.link.(up := v.link.up[1..]))
                  else v.(down := v.down + [Other],
                          link := v.link.(up := v.link.up[1..], refused := v.link.refused + [u])))
  {
    var u := v.link.up[0];
    QueueAppend(v.down, Ack);
    QueueAppend(v.down, Other);
    UnionAppend(v.link.refused, [u]);
    assert Union([u]) == u + Union([]);
    assert v.client.synced;
  }

  lemma NoticeKeeps(v: View)
    requires TabOk(v) && v.member
    ensures TabOk(v.(down := v.down + [Other]))
  {
    QueueAppend(v.down, Other);
    if !v.client.synced {
      var i :| 0 <= i < |v.down| && v.down[i].Doc?;
      assert (v.down + [Other])[i].Doc?;
    }
  }

  lemma JoinKeeps(v: View)
    requires TabOk(v) && v.link.joined.None?
    ensures TabOk(v.(member := true, down := [Doc(v.server)], link := v.link.(joined := Some(v.epoch))))
  {
    var down := [Doc(v.server)];
    assert down[0].Doc? && Carried(down) == v.server + Carried(down[1..]) && Acks(down) == 0;
  }

  // --- every step keeps the invariant ---------------------------------------

  // A step that leaves every other tab, its link and its queue alone.
  lemma OthersKept(s: System, s': System, t: TabId)
    requires Inv(s) && WellFormed(s') && t in s'.tabs
    requires s'.tabs.Keys == s.tabs.Keys + {t}
    requires s'.room.doc == s.room.doc && s'.room.epoch == s.room.epoch && s'.room.members == s.room.members
    requires forall u :: u in s.tabs && u != t ==> s'.tabs[u] == s.tabs[u]
    requires forall id :: id in s.links && id != s'.tabs[t].sock ==>
               id in s'.links && s'.links[id] == s.links[id] && Out(s', id) == Out(s, id)
    requires TabOk(ViewOf(s', t))
    ensures forall u :: u in s'.tabs ==> TabOk(ViewOf(s', u))
  {
    forall u | u in s'.tabs && u != t
      ensures TabOk(ViewOf(s', u))
    {
      assert s'.tabs[u].sock != s'.tabs[t].sock;
      assert ViewOf(s', u) == ViewOf(s, u);
    }
  }

  lemma TabOnlyKeeps(s: System, t: TabId, c: Client)
    requires Inv(s) && t in s.tabs && TabOk(ViewOf(s, t).(client := c))
    ensures Inv(TabOnly(s, t, c))
  {
    var s' := TabOnly(s, t, c);
    assert WellFormed(s');
    assert ViewOf(s', t) == ViewOf(s, t).(client := c);
    OthersKept(s, s', t);
  }

  // What an edit changes: one tab and its link.
  lemma EditShape(s: System, t: TabId, ops: Update)
    requires WellFormed(s) && LinksOk(s) && t in s.tabs
    ensures var s', v := Next(s, Edits(t, ops)), ViewOf(s, t);
            var turn := OnLocalUpdate(v.client, ops);
            && WellFormed(s') && LinksOk(s') && t in s'.tabs
            && ViewOf(s', t) == v.(client := turn.client, link := v.link.(up := v.link.up + turn.sent))
  {
  }

  lemma EditKeeps(s: System, t: TabId, ops: Update)
    requires Inv(s) && t in s.tabs
    ensures Inv(Next(s, Edits(t, ops)))
  {
    EditShape(s, t, ops);
    TurnKeeps(ViewOf(s, t), ops);
    OthersKept(s, Next(s, Edits(t, ops)), t);
  }

  // What a delivery changes: one tab, its link and its queue.
  lemma DeliveryShape(s: System, t: TabId, missing: Update)
    requires WellFormed(s) && Enabled(s, Delivers(t, missing))
    ensures var s', id := Next(s, Delivers(t, missing)), s.tabs[t].sock;
            var v := ViewOf(s, t);
            var turn := OnFrame(v.client, v.down[0], missing);
            && s'.tabs == s.tabs[t := Tab(turn.client, id)]
            && s'.links == s.links[id := v.link.(up := v.link.up + turn.sent)]
            && s'.room == s.room.(outgoing := s.room.outgoing[id := v.down[1..]])
            && s'.next == s.next
            && WellFormed(s')
            && ViewOf(s', t) == v.(client := turn.client, down := v.down[1..],
                                   link := v.link.(up := v.link.up + turn.sent))
  {
  }

  lemma DeliveryFrame(s: System, t: TabId, missing: Update)
    requires WellFormed(s) && LinksOk(s) && Enabled(s, Delivers(t, missing))
    ensures var s' := Next(s, Delivers(t, missing));
            && LinksOk(s')
            && (forall id :: id in s.links && id != s.tabs[t].sock ==>
                  id in s'.links && s'.links[id] == s.links[id] && Out(s', id) == Out(s, id))
  {
    DeliveryShape(s, t, missing);
  }

  lemma DeliverKeeps(s: System, t: TabId, missing: Update)
    requires Inv(s) && Enabled(s, Delivers(t, missing))
    ensures Inv(Next(s, Delivers(t, missing)))
  {
    var s' := Next(s, Delivers(t, missing));
    var v := ViewOf(s, t);
    DeliveryShape(s, t, missing);
    DeliveryFrame(s, t, missing);
    assert TabOk(ViewOf(s', t)) by {
      DeliveryKeeps(v, missing);
    }
    OthersKept(s, s', t);
  }

  lemma ListenerStepKeeps(s: System, t: TabId, promise: nat, refused: bool)
    requires Inv(s) && t in s.tabs
    ensures var c := s.tabs[t].client;
            && (c.ready.Opening? ==> Inv(TabOnly(s, t, c.(ready := Open))))
            && (c.ready.Open? ==> Inv(TabOnly(s, t, c.(ready := Closing))))
            && (!c.ready.Closed? ==> Inv(TabOnly(s, t, OnClose(c, refused))))
            && Inv(TabOnly(s, t, Close(c)))
            && Inv(TabOnly(s, t, Flush(c, promise)))
            && Inv(TabOnly(s, t, FlushTimeout(c, promise)))
  {
    var c := s.tabs[t].client;
    ListenersKeep(ViewOf(s, t), promise, refused);
    if c.ready.Opening? { TabOnlyKeeps(s, t, c.(ready := Open)); }
    if c.ready.Open? { TabOnlyKeeps(s, t, c.(ready := Closing)); }
    if !c.ready.Closed? { TabOnlyKeeps(s, t, OnClose(c, refused)); }
    TabOnlyKeeps(s, t, Close(c));
    TabOnlyKeeps(s, t, Flush(c, promise));
    TabOnlyKeeps(s, t, FlushTimeout(c, promise));
  }

  lemma NewSocketKeeps(s: System, t: TabId, c: Client, role: bool)
    requires Inv(s)
    requires !c.synced && c.unacked == 0 && !c.retry && !c.status.Synced? && !c.status.Syncing?
    ensures Inv(NewSocket(s, t, c, role))
  {
    var s' := NewSocket(s, t, c, role);
    assert s.next !in s.links && Out(s', s.next) == [];
    assert WellFormed(s');
    assert ViewOf(s', t) == View(s.room.doc, s.room.epoch, false, Link(role, None, [], []), [], c);
    OthersKept(s, s', t);
  }

  lemma JoinStepKeeps(s: System, id: ConnId)
    requires Inv(s) && Enabled(s, Joins(id))
    ensures Inv(Next(s, Joins(id)))
  {
    var s' := Next(s, Joins(id));
    assert WellFormed(s') && LinksOk(s');
    forall t | t in s'.tabs
      ensures TabOk(ViewOf(s', t))
    {
      var v := ViewOf(s, t);
      if s.tabs[t].sock == id {
        JoinKeeps(v);
        assert Out(s', id) == [Doc(s.room.doc)];
      } else {
        assert ViewOf(s', t) == v;
      }
    }
  }

  lemma ServeStepKeeps(s: System, id: ConnId)
    requires Inv(s) && Enabled(s, Serves(id))
    ensures Inv(Next(s, Serves(id)))
  {
    var s' := Next(s, Serves(id));
    var l := s.links[id];
    assert WellFormed(s') && LinksOk(s');
    forall t | t in s'.tabs
      ensures TabOk(ViewOf(s', t))
    {
      var v := ViewOf(s, t);
      if s.tabs[t].sock == id {
        ServeKeeps(v);
        assert Out(s', id) == Out(s, id) + [if l.editor then Ack else Other];
      } else if l.editor {
        BroadcastKeeps(v, l.up[0]);
        assert ViewOf(s', t) ==
               v.(server := v.server + l.up[0], down := if v.member then v.down + [Doc(l.up[0])] else v.down);
      } else {
        assert ViewOf(s', t) == v;
      }
    }
  }

  lemma NoticeStepKeeps(s: System, id: ConnId)
    requires Inv(s) && id in s.room.members
    ensures Inv(Next(s, Notifies(id))) && Inv(Next(s, Detaches(id)))
  {
    var s', s'' := Next(s, Notifies(id)), Next(s, Detaches(id));
    assert WellFormed(s') && LinksOk(s') && WellFormed(s'') && LinksOk(s'');
    forall t | t in s.tabs
      ensures TabOk(ViewOf(s', t)) && TabOk(ViewOf(s'', t))
    {
      var v := ViewOf(s, t);
      assert TabOk(v);
      if s.tabs[t].sock == id {
        NoticeKeeps(v);
        assert ViewOf(s', t) == v.(down := v.down + [Other]);
        assert ViewOf(s'', t) == v.(member := false);
      } else {
        assert ViewOf(s', t) == ViewOf(s'', t) == v;
      }
    }
  }

  lemma RestoreStepKeeps(s: System, ops: Update)
    requires Inv(s)
    ensures Inv(Next(s, Restores(ops)))
  {
    var s' := Next(s, Restores(ops));
    assert WellFormed(s') && LinksOk(s');
    forall t | t in s'.tabs
      ensures TabOk(ViewOf(s', t))
    {
      BroadcastKeeps(ViewOf(s, t), ops);
    }
  }

  lemma ReloadStepKeeps(s: System)
    requires Inv(s)
    ensures Inv(Next(s, Reloads)) && Inv(Next(s, Checkpoints))
  {
    var s', s'' := Next(s, Reloads), Next(s, Checkpoints);
    assert WellFormed(s') && LinksOk(s') && WellFormed(s'') && LinksOk(s'');
    forall t | t in s.tabs
      ensures TabOk(ViewOf(s', t)) && TabOk(ViewOf(s'', t))
    {
      var v := ViewOf(s, t);
      assert TabOk(v) && ViewOf(s'', t) == v;
      assert ViewOf(s', t) == v.(server := s.stored, epoch := v.epoch + 1, member := false);
    }
  }

  /** Every step keeps the invariant of every tab. */
  lemma StepKeeps(s: System, a: Action)
    requires Inv(s) && Enabled(s, a)
    ensures Inv(Next(s, a))
  {
    match a {
      case OpenTab(t, role) => NewSocketKeeps(s, t, FRESH, role);
      case Reconnects(t, role) =>
        assert TabOk(ViewOf(s, t));
        NewSocketKeeps(s, t, Connect(s.tabs[t].client), role);
      case Edits(t, ops) => EditKeeps(s, t, ops);
      case Delivers(t, missing) => DeliverKeeps(s, t, missing);
      case SocketOpens(t) => ListenerStepKeeps(s, t, 0, false);
      case SocketCloses(t, refused) => ListenerStepKeeps(s, t, 0, refused);
      case SocketStartsClosing(t) => ListenerStepKeeps(s, t, 0, false);
      case Flushes(t, p) => ListenerStepKeeps(s, t, p, false);
      case FlushTimesOut(t, p) => ListenerStepKeeps(s, t, p, false);
      case CloseTab(t) => ListenerStepKeeps(s, t, 0, false);
      case Joins(id) => JoinStepKeeps(s, id);
      case Serves(id) => ServeStepKeeps(s, id);
      case Notifies(id) => NoticeStepKeeps(s, id);
      case Detaches(id) => NoticeStepKeeps(s, id);
      case Restores(ops) => RestoreStepKeeps(s, ops);
      case Checkpoints => ReloadStepKeeps(s);
      case Reloads => ReloadStepKeeps(s);
    }
  }

  lemma InitOk(s: System)
    requires Init(s)
    ensures Inv(s)
  {
  }

  lemma {:induction false} RunKeeps(s: System, acts: seq<Action>, t: System)
    requires Inv(s) && Runs(s, acts, t)
    ensures Inv(t)
    decreases |acts|
  {
    if acts == [] {
    } else {
      StepKeeps(s, acts[0]);
      RunKeeps(Next(s, acts[0]), acts[1..], t);
    }
  }

  lemma {:induction false} Extend(s: System, acts: seq<Action>, t: System, a: Action)
    requires Runs(s, acts, t) && WellFormed(t) && Enabled(t, a)
    ensures Runs(s, acts + [a], Next(t, a))
    decreases |acts|
  {
    if acts == [] {
      assert acts + [a] == [a] && [a][1..] == [];
      assert Runs(Next(s, a), [], Next(t, a));
    } else {
      assert (acts + [a])[1..] == acts[1..] + [a];
      Extend(Next(s, acts[0]), acts[1..], t, a);
    }
  }

  // An editor's updates are never refused.
  ghost predicate EditorsServed(s: System) {
    forall id :: id in s.links && s.links[id].editor ==> s.links[id].refused == []
  }

  lemma EditorsStayServed(s: System, a: Action)
    requires WellFormed(s) && Enabled(s, a) && EditorsServed(s)
    ensures EditorsServed(Next(s, a))
  {
    if a.Delivers? {
      DeliveryShape(s, a.tab, a.missing);
    }
  }

  lemma {:induction false} RunServesEditors(s: System, acts: seq<Action>, t: System)
    requires EditorsServed(s) && Runs(s, acts, t)
    ensures EditorsServed(t)
    decreases |acts|
  {
    if acts == [] {
    } else {
      EditorsStayServed(s, acts[0]);
      RunServesEditors(Next(s, acts[0]), acts[1..], t);
    }
  }

  // --- what it means ---------------------------------------------------------

  // The tab's socket is open and was registered in the document the room holds.
  ghost predicate Attached(s: System, t: TabId) {
    t in s.tabs && s.tabs[t].sock in s.links && s.tabs[t].client.ready.Open? &&
    s.links[s.tabs[t].sock].joined == Some(s.room.epoch)
  }

  // Nothing is on its way between the tab and the server.
  ghost predicate Quiet(s: System, t: TabId)
    requires t in s.tabs && s.tabs[t].sock in s.links
  {
    s.links[s.tabs[t].sock].up == [] && Out(s, s.tabs[t].sock) == []
  }

  /** Both halves of convergence, at every moment of every run. */
  lemma ReplicasBounded(s0: System, acts: seq<Action>, s: System, t: TabId)
    requires Init(s0) && Runs(s0, acts, s)
    requires Attached(s, t) && s.tabs[t].sock in s.room.members
    ensures var c, l := s.tabs[t].client, s.links[s.tabs[t].sock];
            && s.room.doc <= c.doc + Carried(Out(s, s.tabs[t].sock))
            && Carried(Out(s, s.tabs[t].sock)) <= s.room.doc
            && (c.synced ==> c.doc <= s.room.doc + Union(l.up) + Union(l.refused))
  {
    RunKeeps(s0, acts, s);
    assert TabOk(ViewOf(s, t));
  }

  /** A registered tab with empty queues equals the server, unless it had updates refused;
      an editor's equals it, and shows "synced". */
  lemma Convergence(s0: System, acts: seq<Action>, s: System, t: TabId)
    requires Init(s0) && Runs(s0, acts, s)
    requires Attached(s, t) && s.tabs[t].sock in s.room.members && Quiet(s, t)
    ensures s.room.doc <= s.tabs[t].client.doc
    ensures s.tabs[t].client.doc <= s.room.doc + Union(s.links[s.tabs[t].sock].refused)
    ensures s.links[s.tabs[t].sock].refused == [] <==> s.tabs[t].client.status == Synced
    ensures s.links[s.tabs[t].sock].editor ==>
              s.tabs[t].client.doc == s.room.doc && s.tabs[t].client.status == Synced
  {
    RunKeeps(s0, acts, s);
    RunServesEditors(s0, acts, s);
    assert TabOk(ViewOf(s, t));
  }

  /** On an open socket that was registered in the document the room holds now, "synced"
      means the server has everything held here. */
  lemma SyncedIsTruthful(s0: System, acts: seq<Action>, s: System, t: TabId)
    requires Init(s0) && Runs(s0, acts, s) && Attached(s, t)
    requires s.tabs[t].client.status == Synced
    ensures s.tabs[t].client.doc <= s.room.doc
    ensures s.links[s.tabs[t].sock].up == [] && s.links[s.tabs[t].sock].refused == []
  {
    RunKeeps(s0, acts, s);
    var v := ViewOf(s, t);
    assert TabOk(v) && v.client.unacked == 0;
  }

  /** `unacked` is exactly the number of updates on this socket not yet seen acknowledged. */
  lemma UnackedIsExact(s0: System, acts: seq<Action>, s: System, t: TabId)
    requires Init(s0) && Runs(s0, acts, s) && t in s.tabs
    ensures s.tabs[t].sock in s.links
    ensures var l := s.links[s.tabs[t].sock];
            s.tabs[t].client.unacked == |l.up| + |l.refused| + Acks(Out(s, s.tabs[t].sock))
  {
    RunKeeps(s0, acts, s);
    assert TabOk(ViewOf(s, t));
  }

  // --- nothing is lost --------------------------------------------------------

  lemma StepGrowsDocs(s: System, a: Action, t: TabId)
    requires WellFormed(s) && Enabled(s, a) && t in s.tabs
    ensures t in Next(s, a).tabs && s.tabs[t].client.doc <= Next(s, a).tabs[t].client.doc
  {
  }

  lemma {:induction false} RunGrowsDocs(s: System, acts: seq<Action>, s': System, t: TabId)
    requires Runs(s, acts, s') && t in s.tabs
    ensures t in s'.tabs && s.tabs[t].client.doc <= s'.tabs[t].client.doc
    decreases |acts|
  {
    if acts == [] {
    } else {
      StepGrowsDocs(s, acts[0], t);
      RunGrowsDocs(Next(s, acts[0]), acts[1..], s', t);
    }
  }

  /** Whatever drops, restarts and reconnects happen in between, an operation the tab held is
      on the server once the last reconnect has settled: the tab shows "synced", or it is an
      editor's and nothing is on its way. */
  lemma NothingIsLost(s0: System, before: seq<Action>, s: System, after: seq<Action>, s': System, t: TabId, op: Op)
    requires Init(s0) && Runs(s0, before, s) && Runs(s, after, s')
    requires t in s.tabs && op in s.tabs[t].client.doc
    requires Attached(s', t)
    requires var id := s'.tabs[t].sock;
             s'.tabs[t].client.status == Synced
             || (id in s'.room.members && Quiet(s', t) && s'.links[id].editor)
    ensures op in s'.room.doc
  {
    RunKeeps(s0, before, s);
    RunKeeps(s, after, s');
    RunGrowsDocs(s, after, s', t);
    RunServesEditors(s0, before, s);
    RunServesEditors(s, after, s');
    var v := ViewOf(s', t);
    assert TabOk(v) && v.client.unacked == 0;
  }

  lemma ListenersConfirm(c: Client, f: Frame, missing: Update, ops: Update)
    ensures var c' := OnFrame(c, f, missing).client; c'.confirmed <= c.confirmed || c'.status == Synced
    ensures var c' := OnLocalUpdate(c, ops).client; c'.confirmed <= c.confirmed || c'.status == Synced
  {
  }

  lemma DeliveryConfirms(s: System, u: TabId, missing: Update, t: TabId)
    requires WellFormed(s) && Enabled(s, Delivers(u, missing)) && t in s.tabs
    ensures t in Next(s, Delivers(u, missing)).tabs
    ensures var c, c' := s.tabs[t].client, Next(s, Delivers(u, missing)).tabs[t].client;
            c'.confirmed <= c.confirmed || c'.status == Synced
  {
    DeliveryShape(s, u, missing);
    ListenersConfirm(s.tabs[t].client, Out(s, s.tabs[u].sock)[0], missing, {});
  }

  // A promise is confirmed only together with the status "synced".
  lemma StepConfirms(s: System, a: Action, t: TabId)
    requires WellFormed(s) && Enabled(s, a) && t in s.tabs
    ensures var c, c' := s.tabs[t].client, Next(s, a).tabs[t].client;
            c'.confirmed <= c.confirmed || c'.status == Synced
  {
    match a
    case Delivers(u, missing) => DeliveryConfirms(s, u, missing, t);
    case Edits(u, ops) => ListenersConfirm(s.tabs[t].client, Ack, {}, ops);
    case _ =>
  }

  // Nobody waits for a flush while the status is "synced".
  ghost predicate NobodyWaits(s: System) {
    forall t :: t in s.tabs && s.tabs[t].client.status == Synced ==> s.tabs[t].client.waiting == {}
  }

  lemma DeliveryKeepsWaiting(c: Client, f: Frame, missing: Update)
    requires c.status == Synced ==> c.waiting == {}
    ensures var c' := OnFrame(c, f, missing).client; c'.status == Synced ==> c'.waiting == {}
  {
  }

  lemma StepKeepsWaiting(s: System, a: Action)
    requires WellFormed(s) && Enabled(s, a) && NobodyWaits(s)
    ensures NobodyWaits(Next(s, a))
  {
    if a.Delivers? {
      DeliveryShape(s, a.tab, a.missing);
      DeliveryKeepsWaiting(s.tabs[a.tab].client, Out(s, s.tabs[a.tab].sock)[0], a.missing);
    }
  }

  lemma {:induction false} RunKeepsWaiting(s: System, acts: seq<Action>, t: System)
    requires NobodyWaits(s) && Runs(s, acts, t)
    ensures NobodyWaits(t)
    decreases |acts|
  {
    if acts == [] {
    } else {
      StepKeepsWaiting(s, acts[0]);
      RunKeepsWaiting(Next(s, acts[0]), acts[1..], t);
    }
  }

  lemma ListenersConfirmNobody(c: Client, f: Frame, missing: Update, ops: Update)
    requires c.waiting == {}
    ensures OnFrame(c, f, missing).client.confirmed == c.confirmed
    ensures OnLocalUpdate(c, ops).client.confirmed == c.confirmed
  {
  }

  lemma DeliveryConfirmsNobody(s: System, u: TabId, missing: Update, t: TabId)
    requires WellFormed(s) && Enabled(s, Delivers(u, missing)) && t in s.tabs && s.tabs[t].client.waiting == {}
    ensures t in Next(s, Delivers(u, missing)).tabs
    ensures Next(s, Delivers(u, missing)).tabs[t].client.confirmed == s.tabs[t].client.confirmed
  {
    DeliveryShape(s, u, missing);
    ListenersConfirmNobody(s.tabs[t].client, Out(s, s.tabs[u].sock)[0], missing, {});
  }

  lemma EditConfirmsNobody(s: System, u: TabId, ops: Update, t: TabId)
    requires WellFormed(s) && u in s.tabs && t in s.tabs && s.tabs[t].client.waiting == {}
    ensures t in Next(s, Edits(u, ops)).tabs
    ensures Next(s, Edits(u, ops)).tabs[t].client.confirmed == s.tabs[t].client.confirmed
  {
    ListenersConfirmNobody(s.tabs[t].client, Ack, {}, ops);
  }

  // While the status is "synced", only a call of flush() confirms anything.
  lemma OnlyFlushConfirms(s: System, a: Action, t: TabId, promise: nat)
    requires WellFormed(s) && Enabled(s, a) && t in s.tabs
    requires s.tabs[t].client.status == Synced && s.tabs[t].client.waiting == {}
    requires t in Next(s, a).tabs
    requires promise in Next(s, a).tabs[t].client.confirmed - s.tabs[t].client.confirmed
    ensures a == Flushes(t, promise)
  {
    match a
    case Delivers(u, missing) => DeliveryConfirmsNobody(s, u, missing, t);
    case Edits(u, ops) => EditConfirmsNobody(s, u, ops, t);
    case _ =>
  }

  // --- where the status line is wrong ------------------------------------------

  // "Synced" implies saved.
  predicate Truthful(s: System, t: TabId) {
    t in s.tabs && s.tabs[t].client.status == Synced ==> s.tabs[t].client.doc <= s.room.doc
  }

  // An edit that is not sent, a document reloaded from an older checkpoint, or a frame that
  // brings, or an acknowledgement that covers, what such a reload has lost.
  predicate Misleads(s: System, a: Action, t: TabId) {
    t in s.tabs &&
    var c := s.tabs[t].client;
    match a
    case Edits(u, ops) => u == t && c.status == Synced && !c.ready.Open? && !(ops <= s.room.doc)
    case Reloads => c.status == Synced && !(c.doc <= s.stored)
    case Delivers(u, missing) =>
      u == t && |Out(s, s.tabs[t].sock)| > 0 &&
      (match Out(s, s.tabs[t].sock)[0]
       case Doc(ops) => (c.status == Synced || (!c.synced && missing == {})) && !(c.doc + ops <= s.room.doc)
       case Ack => c.synced && c.unacked == 1 && !(c.doc <= s.room.doc)
       case Other => false)
    case _ => false
  }

  lemma DeliveryMisleads(s: System, t: TabId, missing: Update)
    requires Inv(s) && Enabled(s, Delivers(t, missing)) && Truthful(s, t)
    ensures Truthful(Next(s, Delivers(t, missing)), t) <==> !Misleads(s, Delivers(t, missing), t)
    ensures Misleads(s, Delivers(t, missing), t) ==> !Current(ViewOf(s, t))
  {
    DeliveryShape(s, t, missing);
    var v := ViewOf(s, t);
    assert TabOk(v);
    DeliveryKeeps(v, missing);
  }

  lemma EditMisleads(s: System, u: TabId, ops: Update, t: TabId)
    requires Inv(s) && u in s.tabs && Truthful(s, t)
    ensures Truthful(Next(s, Edits(u, ops)), t) <==> !Misleads(s, Edits(u, ops), t)
  {
    if u == t {
      EditShape(s, t, ops);
      assert TabOk(ViewOf(s, t));
    }
  }

  lemma OthersDeliveryMisleads(s: System, u: TabId, missing: Update, t: TabId)
    requires Inv(s) && Enabled(s, Delivers(u, missing)) && Truthful(s, t) && t != u
    ensures Truthful(Next(s, Delivers(u, missing)), t) && !Misleads(s, Delivers(u, missing), t)
  {
    DeliveryShape(s, u, missing);
  }

  lemma OtherStepsMislead(s: System, a: Action, t: TabId)
    requires Inv(s) && Enabled(s, a) && Truthful(s, t) && !a.Delivers? && !a.Edits?
    ensures !Truthful(Next(s, a), t) <==> Misleads(s, a, t)
  {
    if t in s.tabs {
      assert TabOk(ViewOf(s, t));
    }
  }

  lemma StepMisleads(s: System, a: Action, t: TabId)
    requires Inv(s) && Enabled(s, a) && Truthful(s, t)
    ensures !Truthful(Next(s, a), t) <==> Misleads(s, a, t)
    ensures Misleads(s, a, t) && a.Delivers? ==> !Current(ViewOf(s, t))
  {
    match a
    case Delivers(u, missing) =>
      if u == t {
        DeliveryMisleads(s, t, missing);
      } else {
        OthersDeliveryMisleads(s, u, missing, t);
      }
    case Edits(u, ops) => EditMisleads(s, u, ops, t);
    case _ => OtherStepsMislead(s, a, t);
  }

  /** The status becomes wrong by exactly these steps: an edit the server lacks while the socket
      is not open, a reload that loses something of the document, or a delivery on a socket
      registered before such a reload. */
  lemma StatusMisleadsExactly(s0: System, acts: seq<Action>, s: System, a: Action, t: TabId)
    requires Init(s0) && Runs(s0, acts, s) && WellFormed(s) && Enabled(s, a) && Truthful(s, t)
    ensures !Truthful(Next(s, a), t) <==> Misleads(s, a, t)
    ensures Misleads(s, a, t) && a.Delivers? ==>
              s.tabs[t].sock in s.links && s.links[s.tabs[t].sock].joined != Some(s.room.epoch)
  {
    RunKeeps(s0, acts, s);
    StepMisleads(s, a, t);
  }

  // No step of a run misleads the tab.
  ghost predicate NeverMisled(s: System, acts: seq<Action>, t: TabId)
    decreases |acts|
  {
    acts != [] && WellFormed(s) && Enabled(s, acts[0]) ==>
      !Misleads(s, acts[0], t) && NeverMisled(Next(s, acts[0]), acts[1..], t)
  }

  /** Without such a step "synced" means saved, at the end of every run, in whatever state the socket is. */
  lemma {:induction false} StatusIsTruthful(s: System, acts: seq<Action>, s': System, t: TabId)
    requires Inv(s) && Runs(s, acts, s') && Truthful(s, t) && NeverMisled(s, acts, t)
    ensures Truthful(s', t)
    decreases |acts|
  {
    if acts == [] {
    } else {
      StepKeeps(s, acts[0]);
      StepMisleads(s, acts[0], t);
      StatusIsTruthful(Next(s, acts[0]), acts[1..], s', t);
    }
  }

  /** A flush() resolves with true only while the status is "synced". Everything held here is
      then on the server if the open socket was registered in the room's present document, and in
      any case exactly when the status was truthful and this step did not mislead. */
  lemma FlushIsTruthful(s0: System, acts: seq<Action>, s: System, a: Action, t: TabId, promise: nat)
    requires Init(s0) && Runs(s0, acts, s) && WellFormed(s) && Enabled(s, a) && t in s.tabs
    requires var s' := Next(s, a);
             t in s'.tabs && promise in s'.tabs[t].client.confirmed - s.tabs[t].client.confirmed
    ensures var s' := Next(s, a);
            && s'.tabs[t].client.status == Synced
            && (Attached(s', t) ==> s'.tabs[t].client.doc <= s'.room.doc)
            && (s'.tabs[t].client.doc <= s'.room.doc <==> Truthful(s, t) && !Misleads(s, a, t))
  {
    StepConfirms(s, a, t);
    if Attached(Next(s, a), t) {
      Extend(s0, acts, s, a);
      SyncedIsTruthful(s0, acts + [a], Next(s, a), t);
    }
    if Truthful(s, t) {
      StatusMisleadsExactly(s0, acts, s, a, t);
    } else {
      RunKeepsWaiting(s0, acts, s);
      OnlyFlushConfirms(s, a, t, promise);
    }
  }

  /** An edit keeps "synced implies saved" exactly when the socket is open: while it is
      closing, the edit is not sent and the status stays "synced". */
  lemma EditKeepsStatusTruthful(s0: System, acts: seq<Action>, s: System, t: TabId, ops: Update)
    requires Init(s0) && Runs(s0, acts, s) && t in s.tabs
    requires s.tabs[t].client.status == Synced && !(ops <= s.room.doc)
    ensures WellFormed(s)
    ensures var s' := Next(s, Edits(t, ops));
            (s'.tabs[t].client.status == Synced ==> s'.tabs[t].client.doc <= s'.room.doc)
            <==> s.tabs[t].client.ready.Open?
  {
    RunKeeps(s0, acts, s);
    assert TabOk(ViewOf(s, t));
    var op :| op in ops && op !in s.room.doc;
    assert op in Next(s, Edits(t, ops)).tabs[t].client.doc;
  }

  // --- settling takes a bounded number of steps ----------------------------------

  ghost predicate Unsynced(s: System, id: ConnId) {
    exists t :: t in s.tabs && s.tabs[t].sock == id && !s.tabs[t].client.synced
  }

  // Serving an update queues one frame per member; a first frame may cause one update.
  ghost function Weight(s: System, id: ConnId): nat {
    (if id in s.links then |s.links[id].up| * (|s.room.members| + 1) else 0)
    + |Out(s, id)|
    + (if Unsynced(s, id) then |s.room.members| + 1 else 0)
  }

  ghost function Work(s: System, n: nat): nat {
    if n == 0 then 0 else Weight(s, n - 1) + Work(s, n - 1)
  }

  // How many of the first `n` connections are in `ids`.
  ghost function Below(ids: set<ConnId>, n: nat): nat {
    if n == 0 then 0 else (if n - 1 in ids then 1 else 0) + Below(ids, n - 1)
  }

  lemma {:induction false} BelowIsSize(ids: set<ConnId>, n: nat)
    requires forall id :: id in ids ==> id < n
    ensures Below(ids, n) == |ids|
  {
    if n == 0 {
      assert ids == {};
    } else {
      var rest := ids - {n - 1};
      BelowIsSize(rest, n - 1);
      BelowAgrees(ids, rest, n - 1);
      if n - 1 in ids {
        assert ids == rest + {n - 1};
      } else {
        assert ids == rest;
      }
    }
  }

  lemma {:induction false} BelowAgrees(ids: set<ConnId>, other: set<ConnId>, n: nat)
    requires forall id :: id < n ==> (id in ids <==> id in other)
    ensures Below(ids, n) == Below(other, n)
  {
    if n == 0 {
    } else {
      BelowAgrees(ids, other, n - 1);
    }
  }

  // Weights that change at one connection by `own`, and by at most one frame at each member.
  lemma {:induction false} WorkChanges(s: System, s': System, id: ConnId, drop: nat, gain: set<ConnId>, n: nat)
    requires Weight(s', id) + drop <= Weight(s, id) + (if id in gain then 1 else 0)
    requires forall i: nat :: i < n && i != id ==> Weight(s', i) <= Weight(s, i) + (if i in gain then 1 else 0)
    ensures Work(s', n) + (if id < n then drop else 0) <= Work(s, n) + Below(gain, n)
  {
    if n == 0 {
    } else {
      WorkChanges(s, s', id, drop, gain, n - 1);
    }
  }

  lemma UnsyncedIsOwn(s: System, t: TabId)
    requires WellFormed(s) && t in s.tabs
    ensures Unsynced(s, s.tabs[t].sock) <==> !s.tabs[t].client.synced
  {
  }

  lemma OtherWeightsKept(s: System, t: TabId, missing: Update, i: ConnId)
    requires WellFormed(s) && Enabled(s, Delivers(t, missing)) && i != s.tabs[t].sock
    ensures Weight(Next(s, Delivers(t, missing)), i) == Weight(s, i)
  {
    var s' := Next(s, Delivers(t, missing));
    DeliveryShape(s, t, missing);
    assert Unsynced(s', i) <==> Unsynced(s, i) by {
      if Unsynced(s, i) {
        var u :| u in s.tabs && s.tabs[u].sock == i && !s.tabs[u].client.synced;
        assert s'.tabs[u] == s.tabs[u];
      }
    }
  }

  lemma OneMoreUp(up: nat, sent: nat, m: nat)
    requires sent <= 1
    ensures (up + sent) * (m + 1) == up * (m + 1) + (if sent == 1 then m + 1 else 0)
  {
  }

  // A delivery sends at most one update, and only as the first frame.
  lemma FirstFrameSends(s: System, t: TabId, missing: Update)
    requires Inv(s) && Enabled(s, Delivers(t, missing))
    ensures var turn := OnFrame(s.tabs[t].client, Out(s, s.tabs[t].sock)[0], missing);
            |turn.sent| <= 1
            && (s.tabs[t].client.synced ==> turn.sent == [] && turn.client.synced)
            && (turn.sent != [] ==> turn.client.synced)
  {
  }

  lemma OwnWeightDrops(s: System, t: TabId, missing: Update)
    requires Inv(s) && Enabled(s, Delivers(t, missing))
    ensures Weight(Next(s, Delivers(t, missing)), s.tabs[t].sock) + 1 <= Weight(s, s.tabs[t].sock)
  {
    var s', id := Next(s, Delivers(t, missing)), s.tabs[t].sock;
    var turn := OnFrame(s.tabs[t].client, Out(s, id)[0], missing);
    DeliveryShape(s, t, missing);
    UnsyncedIsOwn(s, t);
    UnsyncedIsOwn(s', t);
    FirstFrameSends(s, t, missing);
    assert |s'.links[id].up| == |s.links[id].up| + |turn.sent|;
    OneMoreUp(|s.links[id].up|, |turn.sent|, |s.room.members|);
  }

  lemma DeliveryIsProgress(s: System, t: TabId, missing: Update)
    requires Inv(s) && Enabled(s, Delivers(t, missing))
    ensures var s' := Next(s, Delivers(t, missing)); Work(s', s'.next) < Work(s, s.next)
  {
    var s', id := Next(s, Delivers(t, missing)), s.tabs[t].sock;
    OwnWeightDrops(s, t, missing);
    forall i | i != id
      ensures Weight(s', i) == Weight(s, i)
    {
      OtherWeightsKept(s, t, missing, i);
    }
    WorkChanges(s, s', id, 1, {}, s.next);
    BelowIsSize({}, s.next);
    assert s'.next == s.next && id < s.next;
  }

  lemma ServingIsProgress(s: System, id: ConnId)
    requires Inv(s) && Enabled(s, Serves(id))
    ensures var s' := Next(s, Serves(id)); Work(s', s'.next) < Work(s, s.next)
  {
    var s' := Next(s, Serves(id));
    var m, k := |s.room.members|, |s.links[id].up|;
    assert (k - 1) * (m + 1) == k * (m + 1) - (m + 1);
    forall i | i != id
      ensures Weight(s', i) <= Weight(s, i) + (if i in s.room.members then 1 else 0)
    {
      assert Unsynced(s', i) <==> Unsynced(s, i);
    }
    assert Unsynced(s', id) <==> Unsynced(s, id);
    WorkChanges(s, s', id, m + 1, s.room.members, s.next);
    BelowIsSize(s.room.members, s.next);
  }

  // The steps that only move what is already on its way, and those that touch neither that nor
  // the document.
  predicate Moves(a: Action) {
    a.Serves? || a.Delivers?
  }

  predicate Idles(a: Action) {
    a.Checkpoints? || a.Flushes? || a.FlushTimesOut?
  }

  function CountMoves(acts: seq<Action>): nat {
    if acts == [] then 0 else (if Moves(acts[0]) then 1 else 0) + CountMoves(acts[1..])
  }

  lemma IdlingKeepsWeight(s: System, a: Action, id: ConnId)
    requires WellFormed(s) && Enabled(s, a) && Idles(a)
    ensures Next(s, a).next == s.next && Weight(Next(s, a), id) == Weight(s, id)
  {
    var s' := Next(s, a);
    assert Unsynced(s', id) <==> Unsynced(s, id) by {
      if Unsynced(s, id) {
        var t :| t in s.tabs && s.tabs[t].sock == id && !s.tabs[t].client.synced;
        assert t in s'.tabs && s'.tabs[t].sock == id && !s'.tabs[t].client.synced;
      }
      if Unsynced(s', id) {
        var t :| t in s'.tabs && s'.tabs[t].sock == id && !s'.tabs[t].client.synced;
        assert t in s.tabs && s.tabs[t].sock == id && !s.tabs[t].client.synced;
      }
    }
  }

  lemma {:induction false} IdlingKeepsWork(s: System, a: Action, n: nat)
    requires WellFormed(s) && Enabled(s, a) && Idles(a)
    ensures Next(s, a).next == s.next && Work(Next(s, a), n) == Work(s, n)
  {
    if n == 0 {
    } else {
      IdlingKeepsWeight(s, a, n - 1);
      IdlingKeepsWork(s, a, n - 1);
    }
  }

  lemma SettlingStep(s: System, a: Action)
    requires Inv(s) && Enabled(s, a) && (Moves(a) || Idles(a))
    ensures var s' := Next(s, a); (if Moves(a) then 1 else 0) + Work(s', s'.next) <= Work(s, s.next)
  {
    if a.Delivers? {
      DeliveryIsProgress(s, a.tab, a.missing);
    } else if a.Serves? {
      ServingIsProgress(s, a.conn);
    } else {
      IdlingKeepsWork(s, a, s.next);
    }
  }

  /** With no more edits, drops, joins or restarts, the deliveries and served updates of a run are
      bounded, however many checkpoints and flushes come in between. */
  lemma {:induction false} SettlingIsBounded(s: System, acts: seq<Action>, s': System)
    requires Inv(s) && Runs(s, acts, s')
    requires forall i :: 0 <= i < |acts| ==> Moves(acts[i]) || Idles(acts[i])
    ensures CountMoves(acts) + Work(s', s'.next) <= Work(s, s.next)
    decreases |acts|
  {
    if acts == [] {
    } else {
      StepKeeps(s, acts[0]);
      SettlingStep(s, acts[0]);
      SettlingIsBounded(Next(s, acts[0]), acts[1..], s');
    }
  }

  /** When none of a tab's steps is left to do, the tab is quiet (and so `Convergence` applies). */
  lemma NothingLeftMeansQuiet(s: System, t: TabId)
    requires Inv(s) && Attached(s, t) && s.tabs[t].sock in s.room.members
    requires !Enabled(s, Serves(s.tabs[t].sock))
    requires forall missing :: !Enabled(s, Delivers(t, missing))
    ensures Quiet(s, t)
  {
    var id := s.tabs[t].sock;
    if Out(s, id) != [] {
      var f := Out(s, id)[0];
      var missing := if f.Doc? then s.tabs[t].client.doc + f.ops else {};
      assert Enabled(s, Delivers(t, missing));
    }
  }

  lemma EditorSettles(s0: System, acts: seq<Action>, s: System, t: TabId)
    requires Init(s0) && Runs(s0, acts, s)
    requires Attached(s, t) && s.tabs[t].sock in s.room.members && s.links[s.tabs[t].sock].editor
    requires forall id :: !Enabled(s, Serves(id))
    requires forall u, missing :: !Enabled(s, Delivers(u, missing))
    ensures s.tabs[t].client.doc == s.room.doc && s.tabs[t].client.status == Synced
  {
    RunKeeps(s0, acts, s);
    NothingLeftMeansQuiet(s, t);
    Convergence(s0, acts, s, t);
  }

  /** Eventual consistency: wherever a run has led, once nothing is left to serve or deliver - and
      `SettlingIsBounded` says that comes - any two registered editors hold the same document as
      the server, and both show "synced". */
  lemma EditorsAgree(s0: System, acts: seq<Action>, s: System, t: TabId, u: TabId)
    requires Init(s0) && Runs(s0, acts, s)
    requires Attached(s, t) && s.tabs[t].sock in s.room.members && s.links[s.tabs[t].sock].editor
    requires Attached(s, u) && s.tabs[u].sock in s.room.members && s.links[s.tabs[u].sock].editor
    requires forall id :: !Enabled(s, Serves(id))
    requires forall v, missing :: !Enabled(s, Delivers(v, missing))
    ensures s.tabs[t].client.doc == s.tabs[u].client.doc == s.room.doc
    ensures s.tabs[t].client.status == s.tabs[u].client.status == Synced
  {
    EditorSettles(s0, acts, s, t);
    EditorSettles(s0, acts, s, u);
  }
}
