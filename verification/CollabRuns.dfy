/** Runs in which the status line is wrong. */
module CollabRuns {
  import opened Wrappers
  import opened CollabClient
  import opened CollabRoom
  import opened CollabProtocol

  lemma Walk(s0: System, acts: seq<Action>, s: System, a: Action) returns (s': System, acts': seq<Action>)
    requires Init(s0) && Runs(s0, acts, s) && WellFormed(s) && Enabled(s, a)
    ensures s' == Next(s, a) && acts' == acts + [a]
    ensures Runs(s0, acts', s') && WellFormed(s')
  {
    s', acts' := Next(s, a), acts + [a];
    RunKeeps(s0, acts, s);
    StepKeeps(s, a);
    Extend(s0, acts, s, a);
  }

  function EmptySystem(): System {
    System(Room({}, {}, map[], 0), {}, map[], map[], 0)
  }

  const SYNCED := Client({}, Synced, true, 0, Open, false, false, {}, {})

  // A lone editor's tab, registered, with what is on its way up and down.
  function OneTab(c: Client, doc: Update, up: seq<Update>, down: seq<Frame>): System {
    System(Room(doc, {0}, map[0 := down], 0), {}, map[0 := Link(true, Some(0), up, [])], map[0 := Tab(c, 0)], 1)
  }

  // Two steps of that tab.
  lemma TabEdits(c: Client, ops: Update)
    requires c.synced && c.ready.Open? && c.unacked == 0
    ensures var s := OneTab(c, {}, [], []);
            WellFormed(s) && Next(s, Edits(0, ops)) == OneTab(OnLocalUpdate(c, ops).client, {}, [ops], [])
  {
    var s := OneTab(c, {}, [], []);
    assert WellFormed(s);
    assert [] + [ops] == [ops];
    assert Next(s, Edits(0, ops)).links == map[0 := Link(true, Some(0), [ops], [])];
  }

  lemma TabIsServed(c: Client, ops: Update)
    ensures var s := OneTab(c, {}, [ops], []);
            WellFormed(s) && Enabled(s, Serves(0)) && Next(s, Serves(0)) == OneTab(c, ops, [], [Ack])
  {
    var s := OneTab(c, {}, [ops], []);
    assert WellFormed(s) && Enabled(s, Serves(0));
    var s' := Next(s, Serves(0));
    assert {} + ops == ops && [ops][1..] == [];
    var others := PushAll(map[0 := []], {0} - {0}, Doc(ops));
    assert {0} - {0} == {} && others == map[0 := []] && [] + [Ack] == [Ack];
    assert s'.room.outgoing == others[0 := [Ack]] == map[0 := [Ack]];
    assert s'.links == map[0 := Link(true, Some(0), [], [])];
  }

  lemma TabHears(c: Client, doc: Update, f: Frame)
    requires c.ready.Open? && (f.Doc? ==> c.doc + f.ops <= f.ops)
    ensures var s, turn := OneTab(c, doc, [], [f]), OnFrame(c, f, {});
            && WellFormed(s) && Enabled(s, Delivers(0, {}))
            && Next(s, Delivers(0, {})) == OneTab(turn.client, doc, turn.sent, [])
  {
    var s, turn := OneTab(c, doc, [], [f]), OnFrame(c, f, {});
    assert WellFormed(s) && Enabled(s, Delivers(0, {}));
    var s' := Next(s, Delivers(0, {}));
    assert [] + turn.sent == turn.sent && [f][1..] == [];
    assert s'.room.outgoing == map[0 := []];
    assert s'.links == map[0 := Link(true, Some(0), turn.sent, [])];
  }

  lemma TabSyncs(ops: Update)
    ensures OnFrame(FRESH.(ready := Open), Doc({}), {}) == Turn(SYNCED, [])
    ensures OnFrame(SYNCED.(doc := ops, status := Syncing, unacked := 1), Ack, {}) == Turn(SYNCED.(doc := ops), [])
  {
    var none: Update, nobody: set<nat> := {}, {};
    assert none + none == none && nobody + nobody == nobody;
  }

  // Connect, ...
  lemma WalkToJoined() returns (acts: seq<Action>)
    ensures Init(EmptySystem())
    ensures Runs(EmptySystem(), acts, OneTab(FRESH.(ready := Open), {}, [], [Doc({})]))
  {
    var s0 := EmptySystem();
    InitOk(s0);
    var s;
    s, acts := Walk(s0, [], s0, OpenTab(0, true));
    s, acts := Walk(s0, acts, s, SocketOpens(0));
    s, acts := Walk(s0, acts, s, Joins(0));
    assert [] + [Doc({})] == [Doc({})];
    assert s == OneTab(FRESH.(ready := Open), {}, [], [Doc({})]);
  }

  // ... sync with nothing in the document, ...
  lemma WalkToSynced() returns (acts: seq<Action>)
    ensures Init(EmptySystem()) && WellFormed(OneTab(SYNCED, {}, [], []))
    ensures Runs(EmptySystem(), acts, OneTab(SYNCED, {}, [], []))
  {
    var s, live := EmptySystem(), FRESH.(ready := Open);
    acts := WalkToJoined();
    TabSyncs({});
    TabHears(live, {}, Doc({}));
    s, acts := Walk(EmptySystem(), acts, OneTab(live, {}, [], [Doc({})]), Delivers(0, {}));
  }

  // ... type, ...
  lemma WalkToTyped(c: Client, ops: Update) returns (acts: seq<Action>)
    requires c == SYNCED.(doc := ops, status := Syncing, unacked := 1)
    ensures Init(EmptySystem()) && Runs(EmptySystem(), acts, OneTab(c, ops, [], [Ack]))
  {
    acts := WalkToSynced();
    var s;
    TabEdits(SYNCED, ops);
    s, acts := Walk(EmptySystem(), acts, OneTab(SYNCED, {}, [], []), Edits(0, ops));
    assert {} + ops == ops && OnLocalUpdate(SYNCED, ops).client == c;
    TabIsServed(c, ops);
    s, acts := Walk(EmptySystem(), acts, OneTab(c, {}, [ops], []), Serves(0));
  }

  // ... and have it acknowledged.
  lemma WalkToSaved(ops: Update) returns (acts: seq<Action>)
    ensures Init(EmptySystem()) && WellFormed(OneTab(SYNCED.(doc := ops), ops, [], []))
    ensures Runs(EmptySystem(), acts, OneTab(SYNCED.(doc := ops), ops, [], []))
  {
    var c := SYNCED.(doc := ops, status := Syncing, unacked := 1);
    acts := WalkToTyped(c, ops);
    var s;
    TabSyncs(ops);
    TabHears(c, ops, Ack);
    s, acts := Walk(EmptySystem(), acts, OneTab(c, ops, [], [Ack]), Delivers(0, {}));
  }

  /** A closing socket: connect, sync, start closing, type. Asked for a flush, the tab confirms it. */
  lemma SyncedCanLie(promise: nat) returns (acts: seq<Action>, s: System)
    ensures Init(EmptySystem()) && Runs(EmptySystem(), acts, s)
    ensures 0 in s.tabs && s.tabs[0].client.status == Synced && promise in s.tabs[0].client.confirmed
    ensures !(s.tabs[0].client.doc <= s.room.doc)
  {
    var s0 := EmptySystem();
    acts := WalkToSynced();
    s, acts := Walk(s0, acts, OneTab(SYNCED, {}, [], []), SocketStartsClosing(0));
    s, acts := Walk(s0, acts, s, Edits(0, {7}));
    s, acts := Walk(s0, acts, s, Flushes(0, promise));
    assert 7 in s.tabs[0].client.doc;
  }

  /** An open socket: the edit is acknowledged, and the server restarts from a checkpoint without
      it before the browser has noticed. */
  lemma SyncedCanLieOnAnOpenSocket() returns (acts: seq<Action>, s: System)
    ensures Init(EmptySystem()) && Runs(EmptySystem(), acts, s)
    ensures 0 in s.tabs && s.tabs[0].client.status == Synced && s.tabs[0].client.ready == Open
    ensures !(s.tabs[0].client.doc <= s.room.doc)
  {
    var s0 := EmptySystem();
    acts := WalkToSaved({7});
    s, acts := Walk(s0, acts, OneTab(SYNCED.(doc := {7}), {7}, [], []), Reloads);
    assert 7 in s.tabs[0].client.doc;
  }
}
