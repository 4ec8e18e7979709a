/**
 * The browser side of one file's live connection: the variables that
 * `connectCollab` closes over and the listeners that change them.
 *
 * A document is the set of operations it holds, and merging is union.  The
 * functions say what each listener does to the variables; the class below them
 * is the listeners themselves.
 */
module CollabClient {

  type Op = nat
  type Update = set<Op>

  datatype Status = Connecting | Syncing | Synced | Offline | Denied

  // The socket's readyState.
  datatype Ready = Opening | Open | Closing | Closed

  // What the server puts on a connection: document bytes (the full state and a
  // broadcast look the same), an acknowledgement, or any other text message.
  datatype Frame = Doc(ops: Update) | Ack | Other

  datatype Client = Client(
    doc: Update,
    status: Status,
    synced: bool,
    unacked: nat,
    ready: Ready,
    retry: bool,
    closed: bool,
    waiting: set<nat>,    // flush() promises not resolved yet
    confirmed: set<nat>)  // flush() promises resolved with true

  // A client after a listener ran, and the updates it gave to `ws.send`.
  datatype Turn = Turn(client: Client, sent: seq<Update>)

  const FRESH := Client({}, Connecting, false, 0, Opening, false, false, {}, {})

  function SetStatus(c: Client, next: Status): Client {
    if next == c.status then c
    else if next.Synced? then c.(status := next, confirmed := c.confirmed + c.waiting, waiting := {})
    else c.(status := next)
  }

  function Settled(unacked: nat): Status {
    if unacked > 0 then Syncing else Synced
  }

  function Settle(c: Client): Client {
    SetStatus(c, Settled(c.unacked))
  }

  function SendUpdate(c: Client, update: Update): Turn {
    Turn(Settle(c.(unacked := c.unacked + 1)), [update])
  }

  // What a diff against `frame` may be: everything the peer lacks, and nothing
  // this document does not have.
  ghost predicate IsDiff(missing: Update, doc: Update, frame: Update) {
    doc - frame <= missing <= doc
  }

  function OnDoc(c: Client, frame: Update, missing: Update): Turn {
    var merged := c.(doc := c.doc + frame);
    if c.synced then Turn(merged, [])
    else
      var first := merged.(synced := true);
      var t := if missing != {} then SendUpdate(first, missing) else Turn(first, []);
      Turn(Settle(t.client), t.sent)
  }

  function OnAck(c: Client): Client {
    var c' := c.(unacked := if c.unacked > 0 then c.unacked - 1 else 0);
    if c.synced then Settle(c') else c'
  }

  function OnFrame(c: Client, f: Frame, missing: Update): Turn {
    match f
    case Doc(ops) => OnDoc(c, ops, missing)
    case Ack => Turn(OnAck(c), [])
    case Other => Turn(c, [])
  }

  function OnLocalUpdate(c: Client, ops: Update): Turn {
    var c' := c.(doc := c.doc + ops);
    if c.synced && c.ready.Open? then SendUpdate(c', ops) else Turn(c', [])
  }

  function Connect(c: Client): Client {
    c.(synced := false, unacked := 0, ready := Opening, retry := false)
  }

  function OnClose(c: Client, refused: bool): Client {
    var c' := c.(ready := Closed);
    if c.closed then c'
    else if refused then SetStatus(c', Denied)
    else SetStatus(c', Offline).(retry := true)
  }

  function Flush(c: Client, promise: nat): Client {
    if c.status.Synced? then c.(confirmed := c.confirmed + {promise})
    else c.(waiting := c.waiting + {promise})
  }

  function FlushTimeout(c: Client, promise: nat): Client {
    c.(waiting := c.waiting - {promise})
  }

  function Close(c: Client): Client {
    c.(closed := true, retry := false, ready := if c.ready.Closed? then Closed else Closing)
  }

  /** `connectCollab`'s variables and listeners. */
  class CollabConnection {
    var doc: Update
    var status: Status
    var synced: bool
    var unacked: nat
    var ready: Ready
    var retry: bool
    var closed: bool
    var waiting: set<nat>
    var confirmed: set<nat>
    var sent: seq<Update>  // the updates given to the current socket

    ghost function State(): Client
      reads this
    {
      Client(doc, status, synced, unacked, ready, retry, closed, waiting, confirmed)
    }

    constructor ()
      ensures State() == FRESH && sent == []
    {
      doc, status, synced, unacked, ready := {}, Connecting, false, 0, Opening;
      retry, closed, waiting, confirmed, sent := false, false, {}, {}, [];
    }

    method ChangeStatus(next: Status)
      modifies this`status, this`waiting, this`confirmed
      ensures State() == SetStatus(old(State()), next)
    {
      if next == status { return; }
      status := next;
      if next == Synced {
        confirmed := confirmed + waiting;
        waiting := {};
      }
    }

    method SettleStatus()
      modifies this`status, this`waiting, this`confirmed
      ensures State() == Settle(old(State()))
    {
      ChangeStatus(if unacked > 0 then Syncing else Synced);
    }

    method Send(update: Update)
      modifies this
      ensures State() == SendUpdate(old(State()), update).client
      ensures sent == old(sent) + SendUpdate(old(State()), update).sent
    {
      unacked := unacked + 1;
      sent := sent + [update];
      SettleStatus();
    }

    /** The "message" listener; `missing` is Yjs's answer when the frame is the first one. */
    method Message(f: Frame, missing: Update)
      requires ready.Open?
      modifies this
      ensures State() == OnFrame(old(State()), f, missing).client
      ensures sent == old(sent) + OnFrame(old(State()), f, missing).sent
    {
      match f
      case Doc(ops) =>
        doc := doc + ops;
        if !synced {
          synced := true;
          if missing != {} {
            Send(missing);
          }
          SettleStatus();
        }
      case Ack =>
        unacked := if unacked > 0 then unacked - 1 else 0;
        if synced {
          SettleStatus();
        }
      case Other =>
    }

    /** The document's "update" listener, for an edit made in this tab. */
    method LocalUpdate(ops: Update)
      modifies this
      ensures State() == OnLocalUpdate(old(State()), ops).client
      ensures sent == old(sent) + OnLocalUpdate(old(State()), ops).sent
    {
      doc := doc + ops;
      if synced && ready.Open? {
        Send(ops);
      }
    }

    /** `connect`: a new socket, which has sent nothing yet. */
    method Reconnect()
      modifies this
      ensures State() == Connect(old(State())) && sent == []
    {
      synced, unacked, ready, retry, sent := false, 0, Opening, false, [];
    }

    /** `close()`: no reconnect will follow. */
    method CloseTab()
      modifies this
      ensures State() == Close(old(State())) && sent == old(sent)
    {
      closed, retry := true, false;
      if ready != Closed {
        ready := Closing;
      }
    }

    /** The "close" listener; `refused` is close code 1008. */
    method SocketClosed(refused: bool)
      modifies this
      ensures State() == OnClose(old(State()), refused) && sent == old(sent)
    {
      ready := Closed;
      if closed { return; }
      if refused {
        ChangeStatus(Denied);
        return;
      }
      ChangeStatus(Offline);
      retry := true;
    }

    method RequestFlush(promise: nat)
      modifies this`waiting, this`confirmed
      ensures State() == Flush(old(State()), promise)
    {
      if status == Synced {
        confirmed := confirmed + {promise};
      } else {
        waiting := waiting + {promise};
      }
    }
  }
}
