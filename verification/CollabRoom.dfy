/**
 * The server side: one room's document, the connections registered in it, and
 * the frames on their way to each of them.
 */
module CollabRoom {
  import opened CollabClient

  type ConnId = nat

  // `outgoing[id]` is everything queued for a connection and not yet consumed
  // by the browser; it outlives the registration, as frames already written do.
  // `epoch` counts how often the document was reloaded from its checkpoint.
  datatype Room = Room(
    doc: Update,
    members: set<ConnId>,
    outgoing: map<ConnId, seq<Frame>>,
    epoch: nat)

  function Queue(outgoing: map<ConnId, seq<Frame>>, id: ConnId): seq<Frame> {
    if id in outgoing then outgoing[id] else []
  }

  function Push(outgoing: map<ConnId, seq<Frame>>, id: ConnId, f: Frame): map<ConnId, seq<Frame>> {
    outgoing[id := Queue(outgoing, id) + [f]]
  }

  // One more frame for every connection in `to`.
  function PushAll(outgoing: map<ConnId, seq<Frame>>, to: set<ConnId>, f: Frame): map<ConnId, seq<Frame>> {
    map id | id in outgoing.Keys + to ::
      if id in to then Queue(outgoing, id) + [f] else outgoing[id]
  }

  // Registration and the full-state frame happen with nothing in between.
  function Join(r: Room, id: ConnId): Room {
    r.(members := r.members + {id}, outgoing := Push(r.outgoing, id, Doc(r.doc)))
  }

  function Serve(r: Room, id: ConnId, editor: bool, update: Update): Room {
    if editor then
      r.(doc := r.doc + update,
         outgoing := Push(PushAll(r.outgoing, r.members - {id}, Doc(update)), id, Ack))
    else
      r.(outgoing := Push(r.outgoing, id, Other))
  }

  function Replace(r: Room, update: Update): Room {
    r.(doc := r.doc + update, outgoing := PushAll(r.outgoing, r.members, Doc(update)))
  }

  function Detach(r: Room, id: ConnId): Room {
    r.(members := r.members - {id})
  }

  // A server restart, or an idle room evicted and opened again.
  function Reload(r: Room, stored: Update): Room {
    r.(doc := stored, members := {}, epoch := r.epoch + 1)
  }

  lemma PushOneMore(outgoing: map<ConnId, seq<Frame>>, to: set<ConnId>, id: ConnId, f: Frame)
    requires id !in to
    ensures PushAll(outgoing, to + {id}, f) == Push(PushAll(outgoing, to, f), id, f)
  {
  }

  // A broadcast to the members not left yet, and one connection further.
  lemma BroadcastStep(outgoing: map<ConnId, seq<Frame>>, members: set<ConnId>, left: set<ConnId>,
                      exclude: set<ConnId>, id: ConnId, f: Frame)
    requires id in left && left <= members
    ensures var done := PushAll(outgoing, members - left - exclude, f);
            PushAll(outgoing, members - (left - {id}) - exclude, f) == if id in exclude then done else Push(done, id, f)
  {
    var done := members - left - exclude;
    if id in exclude {
      assert members - (left - {id}) - exclude == done;
    } else {
      assert members - (left - {id}) - exclude == done + {id};
      PushOneMore(outgoing, done, id, f);
    }
  }

  class LiveRoom {
    var doc: Update
    var members: set<ConnId>
    var outgoing: map<ConnId, seq<Frame>>
    var epoch: nat

    ghost function State(): Room
      reads this
    {
      Room(doc, members, outgoing, epoch)
    }

    constructor (stored: Update)
      ensures State() == Room(stored, {}, map[], 0)
    {
      doc, members, outgoing, epoch := stored, {}, map[], 0;
    }

    method Send(id: ConnId, f: Frame)
      modifies this`outgoing
      ensures outgoing == Push(old(outgoing), id, f)
    {
      outgoing := outgoing[id := (if id in outgoing then outgoing[id] else []) + [f]];
    }

    /** Queue a frame for everyone but `exclude`, one connection after the other. */
    method Broadcast(f: Frame, exclude: set<ConnId>)
      modifies this`outgoing
      ensures outgoing == PushAll(old(outgoing), members - exclude, f)
    {
      var left := members;
      while left != {}
        invariant left <= members
        invariant outgoing == PushAll(old(outgoing), members - left - exclude, f)
        decreases left
      {
        var id :| id in left;
        BroadcastStep(old(outgoing), members, left, exclude, id, f);
        left := left - {id};
        if id !in exclude {
          Send(id, f);
        }
      }
      assert members - left - exclude == members - exclude;
    }

    method Attach(id: ConnId)
      modifies this
      ensures State() == Join(old(State()), id)
    {
      members := members + {id};
      Send(id, Doc(doc));
    }

    /** The "update" branch of the receive loop. */
    method ReceiveUpdate(id: ConnId, editor: bool, update: Update)
      modifies this
      ensures State() == Serve(old(State()), id, editor, update)
    {
      if !editor {
        Send(id, Other);
        return;
      }
      doc := doc + update;
      Broadcast(Doc(update), {id});
      Send(id, Ack);
    }

    /** `replace_text`'s second half: the restore edit reaches everybody. */
    method ReplaceWith(update: Update)
      modifies this
      ensures State() == Replace(old(State()), update)
    {
      doc := doc + update;
      Broadcast(Doc(update), {});
      assert members - {} == members;
    }

    method DetachConnection(id: ConnId)
      modifies this
      ensures State() == Detach(old(State()), id)
    {
      members := members - {id};
    }
  }
}
