/** A reconnecting client's cursor: old socket, new socket and an observer, in any order. */
module AwarenessHandoff {
  import opened Awareness
  import opened AwarenessCodec
  import opened Wrappers

  // The client with cursor `k`, its login, its two sockets, and its clock when the old one died.
  datatype Story = Story(k: ClientId, user: UserId, name: string, first: Socket, second: Socket, before: nat)

  function ByFirst(story: Story): Sender {
    Sender(story.first, story.user, story.name)
  }

  function BySecond(story: Story): Sender {
    Sender(story.second, story.user, story.name)
  }

  // What an observer's editor holds about `k`.
  datatype Seen = Seen(clock: nat, state: Option<State>)

  // A Yjs client takes strictly newer clocks, and a removal at the clock it has.
  function Observe(o: Seen, e: Entry, k: ClientId): Seen {
    if e.client == k && (o.clock < e.clock || (o.clock == e.clock && e.state.None? && o.state.Some?)) then
      Seen(e.clock, e.state)
    else o
  }

  function ObserveAll(o: Seen, entries: seq<Entry>, k: ClientId): Seen
    decreases |entries|
  {
    if entries == [] then o else ObserveAll(Observe(o, entries[0], k), entries[1..], k)
  }

  // `latest` and `shown` are the client's last announcement on the second socket, of `news`.
  datatype Scene = Scene(peers: Peers, seen: Seen, latest: nat, shown: State, news: nat, dropped: bool)

  datatype Event =
    | FirstSays(clock: nat, state: State)
    | FirstDrops
    | SecondSays(clock: nat, state: State)
    | OthersSay(sender: Sender, entries: seq<Entry>)
    | OthersDrop(ws: Socket)

  // The old socket's late messages come before its end and carry clocks already used; the new
  // one's clocks rise from there; nobody else has the client's sockets or its id.
  predicate Enabled(story: Story, s: Scene, e: Event) {
    match e
    case FirstSays(clock, _) => !s.dropped && clock <= story.before
    case FirstDrops => !s.dropped
    case SecondSays(clock, _) => clock > s.latest
    case OthersSay(sender, entries) =>
      sender.ws != story.first && sender.ws != story.second && Silent(entries, story.k)
    case OthersDrop(ws) => ws != story.first && ws != story.second
  }

  function Announce(story: Story, s: Scene, who: Sender, entries: seq<Entry>): Scene {
    var after := AcceptAll(Starting(s.peers, who.ws), who, entries);
    s.(peers := after.peers, seen := ObserveAll(s.seen, after.relayed, story.k))
  }

  function DropSocket(story: Story, s: Scene, ws: Socket): Scene {
    var gone := Gone(s.peers, ws);
    s.(peers := Left(s.peers, ws),
       seen := if story.k in gone then Observe(s.seen, gone[story.k], story.k) else s.seen)
  }

  function Step(story: Story, s: Scene, e: Event): Scene {
    match e
    case FirstSays(clock, state) => Announce(story, s, ByFirst(story), [Entry(story.k, clock, Some(state))])
    case FirstDrops => DropSocket(story, s, story.first).(dropped := true)
    case SecondSays(clock, state) =>
      Announce(story, s, BySecond(story), [Entry(story.k, clock, Some(state))])
      .(latest := clock, shown := CleanState(state, BySecond(story)), news := s.news + 1)
    case OthersSay(sender, entries) => Announce(story, s, sender, entries)
    case OthersDrop(ws) => DropSocket(story, s, ws)
  }

  // The two sockets hold nothing but `k`, and nobody else holds that.
  ghost predicate Apart(story: Story, peers: Peers) {
    && (forall id :: id in peers && (peers[id].ws == story.first || peers[id].ws == story.second) ==> id == story.k)
    && (story.k in peers ==>
          peers[story.k].user == story.user
          && (peers[story.k].ws == story.first || peers[story.k].ws == story.second))
  }

  ghost predicate Before(story: Story, s: Scene) {
    && s.latest == story.before
    && (story.k in s.peers ==>
          !s.dropped && s.peers[story.k].ws == story.first && s.peers[story.k].clock <= story.before)
    && s.seen.clock <= story.before + (if s.dropped then 1 else 0)
    && (s.seen.clock > story.before ==> s.seen.state == None)
  }

  ghost predicate TakenOver(story: Story, s: Scene) {
    && s.latest > story.before
    && story.k in s.peers && s.peers[story.k] == Peer(s.latest, s.shown, story.second, story.user)
    && s.seen.clock <= s.latest
    && (s.news >= 2 ==> s.seen == Seen(s.latest, Some(s.shown)))
  }

  ghost predicate Inv(story: Story, s: Scene) {
    && story.first != story.second
    && Apart(story, s.peers)
    && if s.news == 0 then Before(story, s) else TakenOver(story, s)
  }

  // --- one announcement of the client ---------------------------------------------

  lemma NothingOwnedYet(story: Story, peers: Peers, ws: Socket)
    requires Apart(story, peers) && (ws == story.first || ws == story.second) && story.k !in peers
    ensures Owned(peers, ws) == 0
  {
    assert OwnedIds(peers, ws) == {};
  }

  lemma OneEntry(story: Story, s: Scene, who: Sender, clock: nat, state: State)
    requires Apart(story, s.peers) && who.user == story.user
    requires who.ws == story.first || who.ws == story.second
    ensures var k, after := story.k, Announce(story, s, who, [Entry(story.k, clock, Some(state))]);
            var entry := Entry(k, clock, Some(CleanState(state, who)));
            if k in s.peers && clock < s.peers[k].clock then after == s
            else after == s.(peers := s.peers[k := Peer(clock, CleanState(state, who), who.ws, who.user)],
                             seen := Observe(s.seen, entry, k))
  {
    var e := Entry(story.k, clock, Some(state));
    var start := Starting(s.peers, who.ws);
    if story.k !in s.peers {
      NothingOwnedYet(story, s.peers, who.ws);
    }
    var after := AcceptOne(start, who, e);
    assert AcceptAll(start, who, [e]) == after;
    if !Refused(start, who, e) {
      var entry := Entry(story.k, clock, Some(CleanState(state, who)));
      assert after.relayed == [entry] && [entry][1..] == [];
      assert ObserveAll(s.seen, [entry], story.k) == Observe(s.seen, entry, story.k);
    }
  }

  lemma FirstKeeps(story: Story, s: Scene, clock: nat, state: State)
    requires Inv(story, s) && Enabled(story, s, FirstSays(clock, state))
    ensures Inv(story, Step(story, s, FirstSays(clock, state)))
  {
    OneEntry(story, s, ByFirst(story), clock, state);
  }

  lemma SecondKeeps(story: Story, s: Scene, clock: nat, state: State)
    requires Inv(story, s) && Enabled(story, s, SecondSays(clock, state))
    ensures Inv(story, Step(story, s, SecondSays(clock, state)))
  {
    OneEntry(story, s, BySecond(story), clock, state);
  }

  lemma DropKeeps(story: Story, s: Scene, e: Event)
    requires Inv(story, s) && Enabled(story, s, e) && (e.FirstDrops? || e.OthersDrop?)
    ensures Inv(story, Step(story, s, e))
  {
  }

  // --- everybody else ---------------------------------------------------------------------

  lemma {:induction false} OthersLeaveAlone(story: Story, a: Accepting, who: Sender, entries: seq<Entry>)
    requires Apart(story, a.peers) && who.ws != story.first && who.ws != story.second
    requires Silent(entries, story.k) && Silent(a.relayed, story.k)
    ensures var after := AcceptAll(a, who, entries);
            && Apart(story, after.peers) && Silent(after.relayed, story.k)
            && (story.k in after.peers <==> story.k in a.peers)
            && (story.k in a.peers ==> after.peers[story.k] == a.peers[story.k])
    decreases |entries|
  {
    if entries == [] {
    } else {
      assert entries[0].client != story.k;
      OthersLeaveAlone(story, AcceptOne(a, who, entries[0]), who, entries[1..]);
    }
  }

  lemma {:induction false} SilenceShowsNothing(o: Seen, entries: seq<Entry>, k: ClientId)
    requires Silent(entries, k)
    ensures ObserveAll(o, entries, k) == o
    decreases |entries|
  {
    if entries == [] {
    } else {
      assert entries[0].client != k;
      SilenceShowsNothing(o, entries[1..], k);
    }
  }

  lemma OthersKeep(story: Story, s: Scene, sender: Sender, entries: seq<Entry>)
    requires Inv(story, s) && Enabled(story, s, OthersSay(sender, entries))
    ensures Inv(story, Step(story, s, OthersSay(sender, entries)))
  {
    var start := Starting(s.peers, sender.ws);
    OthersLeaveAlone(story, start, sender, entries);
    SilenceShowsNothing(s.seen, AcceptAll(start, sender, entries).relayed, story.k);
  }

  // --- any order ----------------------------------------------------------------------------

  lemma StepKeeps(story: Story, s: Scene, e: Event)
    requires Inv(story, s) && Enabled(story, s, e)
    ensures Inv(story, Step(story, s, e))
  {
    match e
    case FirstSays(clock, state) => FirstKeeps(story, s, clock, state);
    case SecondSays(clock, state) => SecondKeeps(story, s, clock, state);
    case OthersSay(sender, entries) => OthersKeep(story, s, sender, entries);
    case _ => DropKeeps(story, s, e);
  }

  ghost predicate IsRun(story: Story, s: Scene, events: seq<Event>)
    decreases |events|
  {
    events != [] ==> Enabled(story, s, events[0]) && IsRun(story, Step(story, s, events[0]), events[1..])
  }

  function Run(story: Story, s: Scene, events: seq<Event>): Scene
    decreases |events|
  {
    if events == [] then s else Run(story, Step(story, s, events[0]), events[1..])
  }

  lemma {:induction false} RunKeeps(story: Story, s: Scene, events: seq<Event>)
    requires Inv(story, s) && IsRun(story, s, events)
    ensures Inv(story, Run(story, s, events))
    decreases |events|
  {
    if events == [] {
    } else {
      StepKeeps(story, s, events[0]);
      RunKeeps(story, Step(story, s, events[0]), events[1..]);
    }
  }

  // What the client said on its second socket, in order.
  function Said(events: seq<Event>): seq<(nat, State)>
    decreases |events|
  {
    if events == [] then []
    else (if events[0].SecondSays? then [(events[0].clock, events[0].state)] else []) + Said(events[1..])
  }

  lemma {:induction false} LastSaid(story: Story, s: Scene, events: seq<Event>)
    ensures var end, said := Run(story, s, events), Said(events);
            && end.news == s.news + |said|
            && (said != [] ==> end.latest == said[|said| - 1].0
                               && end.shown == CleanState(said[|said| - 1].1, BySecond(story)))
            && (said == [] ==> end.latest == s.latest && end.shown == s.shown)
    decreases |events|
  {
    if events == [] {
    } else {
      LastSaid(story, Step(story, s, events[0]), events[1..]);
    }
  }

  /** Whatever the order of the old socket's last messages, its removal, everybody else's doings
      and the new socket's announcements: after two of these an observer shows the last one, and
      the room replays it to newcomers. */
  lemma ObserverShowsTheLatest(story: Story, s: Scene, events: seq<Event>)
    requires Inv(story, s) && s.news == 0 && IsRun(story, s, events) && |Said(events)| >= 2
    ensures var end, said := Run(story, s, events), Said(events);
            var (clock, state) := said[|said| - 1];
            var clean := CleanState(state, BySecond(story));
            && end.seen == Seen(clock, Some(clean))
            && story.k in end.peers && end.peers[story.k] == Peer(clock, clean, story.second, story.user)
  {
    RunKeeps(story, s, events);
    LastSaid(story, s, events);
  }

  /** The first announcement alone is shown exactly when the removal did not use its clock. */
  lemma FirstAnnouncementShows(story: Story, s: Scene, clock: nat, state: State)
    requires Inv(story, s) && s.news == 0 && Enabled(story, s, SecondSays(clock, state))
    ensures Step(story, s, SecondSays(clock, state)).seen == Seen(clock, Some(CleanState(state, BySecond(story))))
            <==> s.seen.clock != clock
  {
    OneEntry(story, s, BySecond(story), clock, state);
  }

  /** One tick ahead is not enough: the removal of the old socket can have taken that clock. */
  lemma OneTickIsNotEnough(story: Story, state: State)
    returns (s: Scene)
    requires story.first != story.second
    ensures Inv(story, s) && s.news == 0
    ensures IsRun(story, s, [FirstDrops, SecondSays(story.before + 1, state)])
    ensures Run(story, s, [FirstDrops, SecondSays(story.before + 1, state)]).seen.state == None
  {
    var peer := Peer(story.before, map[], story.first, story.user);
    s := Scene(map[story.k := peer], Seen(story.before, Some(map[])), story.before, map[], 0, false);
    var dropped := Step(story, s, FirstDrops);
    DropKeeps(story, s, FirstDrops);
    assert dropped.seen == Seen(story.before + 1, None);
    var e := SecondSays(story.before + 1, state);
    OneEntry(story, dropped, BySecond(story), story.before + 1, state);
    var events := [FirstDrops, e];
    assert events[1..] == [e] && [e][1..] == [];
    assert Step(story, dropped, e).seen == dropped.seen;
    assert Run(story, Step(story, dropped, e), []) == Step(story, dropped, e);
    assert Run(story, dropped, [e]) == Step(story, dropped, e);
  }
}
