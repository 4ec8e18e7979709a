/** Runs of the execution protocol in which a cancel goes unheard. */
module ExecutionRuns {
  import opened Wrappers
  import opened ExecutionState
  import opened ExecutionProtocol

  lemma {:induction false} Extend(s: Proto, acts: seq<Action>, t: Proto, a: Action)
    requires Runs(s, acts, t) && Enabled(t, a)
    ensures Runs(s, acts + [a], Next(t, a))
    decreases |acts|
  {
    if acts == [] {
      assert [a][1..] == [] && acts + [a] == [a];
      assert Runs(Next(s, a), [], Next(t, a));
    } else {
      assert (acts + [a])[1..] == acts[1..] + [a];
      Extend(Next(s, acts[0]), acts[1..], t, a);
    }
  }

  lemma Walk(s0: Proto, acts: seq<Action>, s: Proto, a: Action) returns (s': Proto, acts': seq<Action>)
    requires Runs(s0, acts, s) && Enabled(s, a)
    ensures s' == Next(s, a) && acts' == acts + [a] && Runs(s0, acts', s')
  {
    s', acts' := Next(s, a), acts + [a];
    Extend(s0, acts, s, a);
  }

  function Start(): Proto {
    Proto(Shared(Submitted(), 0, false, false, NONE, {}), Delivering, map[], map[], Resting)
  }

  // One worker and at most one cancel request.
  function Lone(g: Shared, w: WorkerState, requests: map<RequestId, Request>): Proto {
    Proto(g, Answered202, map[0 := w], requests, Resting)
  }

  lemma MoveWorker(acts: seq<Action>, g: Shared, w: WorkerState, a: Action, g': Shared, w': WorkerState)
      returns (acts': seq<Action>)
    requires Runs(Start(), acts, Lone(g, w, map[])) && OfWorker(a) && a.worker == 0
    requires WorkerEnabled(g, a, w) && WorkerNext(g, a, 0, w) == (g', w')
    ensures Runs(Start(), acts', Lone(g', w', map[]))
  {
    acts' := acts + [a];
    Extend(Start(), acts, Lone(g, w, map[]), a);
    assert Next(Lone(g, w, map[]), a) == Lone(g', w', map[]);
  }

  function Claimed(): Shared {
    Start().shared.(record := Claim(Submitted(), 0, 0))
  }

  function At(pc: Pc, subscribed: bool): WorkerState {
    FRESH.(pc := pc, claimed := true, subscribed := subscribed)
  }

  // Its program runs in a container.
  function Busy(subscribed: bool): WorkerState {
    At(Waiting(Exec), subscribed).(thread := Made(Exec))
  }

  lemma WalkToClaim() returns (acts: seq<Action>)
    ensures Runs(Start(), acts, Lone(Claimed(), At(Announcing(Starting), false), map[]))
  {
    var s, g := Start(), Start().shared;
    s, acts := Walk(Start(), [], s, Delivers(true, false));
    s, acts := Walk(Start(), acts, s, WorkerArrives(0));
    assert s == Lone(g.(queued := true), FRESH, map[]);
    acts := MoveWorker(acts, g.(queued := true), FRESH, Pops(0), g, FRESH.(pc := Taken));
    acts := MoveWorker(acts, g, FRESH.(pc := Taken), Claims(0), Claimed(), At(Announcing(Starting), false));
  }

  lemma WalkToWork(ok: bool) returns (acts: seq<Action>, g: Shared)
    ensures Runs(Start(), acts, Lone(g, At(Reading(Running), ok), map[]))
    ensures g.record == Claimed().record && g.containers == NONE
  {
    acts := WalkToClaim();
    g := Claimed().(published := Claimed().published + {Starting});
    acts := MoveWorker(acts, Claimed(), At(Announcing(Starting), false), Publishes(0), g, At(Subscribing, false));
    acts := MoveWorker(acts, g, At(Subscribing, false), Subscribes(0, ok), g, At(Checking, ok));
    acts := MoveWorker(acts, g, At(Checking, ok), Rereads(0), g, At(Preparing, ok));
    acts := MoveWorker(acts, g, At(Preparing, ok), Prepares(0, false, false), g, At(Reading(Running), ok));
  }

  lemma WalkToRunning(ok: bool) returns (acts: seq<Action>, g: Shared)
    ensures Runs(Start(), acts, Lone(g, At(Announcing(Running), ok), map[]))
    ensures g.record.row.status == Running && g.containers == NONE
  {
    var g0;
    acts, g0 := WalkToWork(ok);
    g := g0.(record := Change(g0.record, Starting, Running, None, Worker));
    acts := MoveWorker(acts, g0, At(Reading(Running), ok), Loads(0), g0, At(Writing(Running, Starting), ok));
    acts := MoveWorker(acts, g0, At(Writing(Running, Starting), ok), Stores(0), g, At(Announcing(Running), ok));
  }

  lemma WalkToContainer(ok: bool) returns (acts: seq<Action>, g: Shared)
    ensures Runs(Start(), acts, Lone(g, Busy(ok), map[]))
    ensures g.record.row.status == Running && g.containers == NONE.Create(Exec)
  {
    var g0;
    acts, g0 := WalkToRunning(ok);
    var g1, w := g0.(published := g0.published + {Running}), At(Waiting(Exec), ok);
    g := g1.(containers := NONE.Create(Exec));
    acts := MoveWorker(acts, g0, At(Announcing(Running), ok), Publishes(0), g1, At(Entering(Exec), ok));
    acts := MoveWorker(acts, g1, At(Entering(Exec), ok), Enters(0), g1, w.(thread := Begun(Exec)));
    acts := MoveWorker(acts, g1, w.(thread := Begun(Exec)), Makes(0), g, w.(thread := Made(Exec)));
  }

  lemma WalkToRequest(ok: bool) returns (acts: seq<Action>, g: Shared)
    ensures Runs(Start(), acts, Lone(g, Busy(ok), map[0 := Seen(Running, 0)]))
    ensures g.record.row.status == Running && g.containers == NONE.Create(Exec)
  {
    var s;
    acts, g := WalkToContainer(ok);
    var w := Busy(ok);
    s, acts := Walk(Start(), acts, Lone(g, w, map[]), CancelAsked(0));
    assert s == Lone(g, w, map[0 := Asked]);
    s, acts := Walk(Start(), acts, Lone(g, w, map[0 := Asked]), CancelReads(0));
    assert s == Lone(g, w, map[0 := Seen(Running, 0)]);
  }

  /** The worker goes on when subscribing fails: a cancel can then be committed and sent
      while the program keeps running in its container, and the worker never hears of it. */
  lemma UnsubscribedWorkerMissesCancel() returns (acts: seq<Action>, s: Proto)
    ensures Init(Start()) && Runs(Start(), acts, s)
    ensures CancelSent(s, 0) && s.shared.containers == NONE.Create(Exec)
    ensures 0 in s.workers && s.workers[0].pc == Waiting(Exec) && !s.workers[0].inbox && !s.workers[0].cancelSet
  {
    var g;
    acts, g := WalkToRequest(false);
    s, acts := Walk(Start(), acts, Lone(g, Busy(false), map[0 := Seen(Running, 0)]), CancelWrites(0));
    s, acts := Walk(Start(), acts, s, CancelGoesOn(0));
    s, acts := Walk(Start(), acts, s, CancelGoesOn(0));
  }

  /** A subscribed worker misses a cancel too, when the request stops between its commit and its
      signal: the row is cancelled and the program keeps running in its container. */
  lemma UnsentCancelIsMissed() returns (acts: seq<Action>, s: Proto)
    ensures Init(Start()) && Runs(Start(), acts, s)
    ensures Unsent(s, 0) && s.shared.record.row.status == Cancelled && s.shared.containers == NONE.Create(Exec)
    ensures 0 in s.workers && s.workers[0].pc == Waiting(Exec) && s.workers[0].subscribed
    ensures !s.workers[0].inbox && !s.workers[0].cancelSet
  {
    var g;
    acts, g := WalkToRequest(true);
    var seen := Lone(g, Busy(true), map[0 := Seen(Running, 0)]);
    InitOk(Start());
    RunKeeps(Start(), acts, seen);
    assert WorkerOk(g, 0, seen.workers[0]) && !g.signalled;
    s, acts := Walk(Start(), acts, seen, CancelWrites(0));
  }
}
