/** Requests and responses of the debugger client: which future a response completes. */
module DebugClient {
  type Message = string
  type FutureId = nat

  datatype Outcome = Waiting | Answered(msg: Message) | Failed | GivenUp

  // `madeFor` is the sequence number the future was created with.
  datatype Future = Future(madeFor: nat, outcome: Outcome)

  // `reading`: the read loop is running.
  datatype Client = Client(next: nat, pending: map<nat, FutureId>, futures: seq<Future>, reading: bool, closed: bool)

  // The request_seq of a response, which may be missing or no integer.
  datatype Reference = NoNumber | Number(value: int)

  // Start: a request is sent. Response: the loop reads a response. GiveUp: whoever awaits a
  // future times out. Hangup: the loop ends.
  datatype Action = Start | Response(request: Reference, msg: Message) | GiveUp(id: FutureId) | Hangup | Close

  function Settled(f: Future, outcome: Outcome): Future {
    if f.outcome.Waiting? then f.(outcome := outcome) else f
  }

  function PendingFailed(c: Client): (after: Client)
    ensures |after.futures| == |c.futures|
  {
    c.(pending := map[],
       futures := seq(|c.futures|, i requires 0 <= i < |c.futures| =>
         if i in c.pending.Values then Settled(c.futures[i], Failed) else c.futures[i]))
  }

  predicate Enabled(c: Client, a: Action) {
    match a
    case Response(_, _) => c.reading
    case Hangup => c.reading
    case GiveUp(id) => id < |c.futures|
    case _ => true
  }

  function Step(c: Client, a: Action): Client
    requires Inv(c) && Enabled(c, a)
  {
    match a
    case Start =>
      c.(next := c.next + 1, pending := c.pending[c.next := |c.futures|],
         futures := c.futures + [Future(c.next, Waiting)])
    case Response(request, msg) =>
      if request.Number? && request.value in c.pending then
        var id := c.pending[request.value];
        c.(pending := c.pending - {request.value}, futures := c.futures[id := Settled(c.futures[id], Answered(msg))])
      else c
    case GiveUp(id) => c.(futures := c.futures[id := Settled(c.futures[id], GivenUp)])
    case Hangup => PendingFailed(c).(reading := false)
    case Close => PendingFailed(c).(closed := true)
  }

  // A number is used once, a waiting future can still be found under its number, and what is
  // found under a number was made for it.
  ghost predicate Inv(c: Client) {
    && c.next == |c.futures| + 1
    && (forall k :: k in c.pending ==> 1 <= k < c.next && c.pending[k] == k - 1)
    && (forall i :: 0 <= i < |c.futures| ==> c.futures[i].madeFor == i + 1)
    && (forall i :: 0 <= i < |c.futures| && c.futures[i].outcome.Waiting? ==> i + 1 in c.pending)
  }

  const FRESH := Client(1, map[], [], true, false)

  lemma StepKeeps(c: Client, a: Action)
    requires Inv(c) && Enabled(c, a)
    ensures Inv(Step(c, a)) && |Step(c, a).futures| >= |c.futures|
  {
    if a.Hangup? || a.Close? {
      forall i | 0 <= i < |c.futures|
        ensures !PendingFailed(c).futures[i].outcome.Waiting?
      {
        NobodyLeftWaiting(c, i);
      }
    }
  }

  lemma PendingIds(c: Client)
    requires Inv(c)
    ensures forall i: FutureId :: i in c.pending.Values <==> i + 1 in c.pending
  {
    forall i: FutureId
      ensures i in c.pending.Values <==> i + 1 in c.pending
    {
      if i in c.pending.Values {
        var k :| k in c.pending && c.pending[k] == i;
        assert k == i + 1;
      }
      if i + 1 in c.pending {
        assert c.pending[i + 1] == i;
      }
    }
  }

  lemma NobodyLeftWaiting(c: Client, i: FutureId)
    requires Inv(c) && i < |c.futures|
    ensures PendingFailed(c).futures[i] == Settled(c.futures[i], Failed)
  {
    PendingIds(c);
  }

  // --- whole sessions ------------------------------------------------------------------

  ghost predicate IsRun(c: Client, actions: seq<Action>)
    requires Inv(c)
    decreases |actions|
  {
    actions != [] ==>
      && Enabled(c, actions[0])
      && (StepKeeps(c, actions[0]); IsRun(Step(c, actions[0]), actions[1..]))
  }

  ghost function Run(c: Client, actions: seq<Action>): (after: Client)
    requires Inv(c) && IsRun(c, actions)
    ensures Inv(after) && |after.futures| >= |c.futures|
    decreases |actions|
  {
    if actions == [] then c
    else
      StepKeeps(c, actions[0]);
      Run(Step(c, actions[0]), actions[1..])
  }

  predicate Settles(a: Action, id: FutureId) {
    match a
    case Response(request, _) => request == Number(id + 1)
    case GiveUp(other) => other == id
    case Hangup => true
    case Close => true
    case Start => false
  }

  // What the first action that concerns the future says.
  function Fate(id: FutureId, actions: seq<Action>): Outcome
    decreases |actions|
  {
    if actions == [] then Waiting
    else if !Settles(actions[0], id) then Fate(id, actions[1..])
    else
      match actions[0]
      case Response(_, msg) => Answered(msg)
      case GiveUp(_) => GivenUp
      case _ => Failed
  }

  lemma StepSettles(c: Client, a: Action, id: FutureId)
    requires Inv(c) && Enabled(c, a) && id < |c.futures|
    ensures id < |Step(c, a).futures|
    ensures Step(c, a).futures[id] ==
            if Settles(a, id) && c.futures[id].outcome.Waiting? then c.futures[id].(outcome := Fate(id, [a]))
            else c.futures[id]
  {
    NobodyLeftWaiting(c, id);
    if c.futures[id].outcome.Waiting? {
      assert id + 1 in c.pending;
    }
  }

  /** In any session a future is completed by the first thing that concerns it - the response
      with the number it was created with, a timeout, the end of the loop or a close - and by
      nothing before, after or for another number. */
  lemma {:induction false} FirstToSettleWins(c: Client, actions: seq<Action>, id: FutureId)
    requires Inv(c) && IsRun(c, actions) && id < |c.futures|
    ensures Run(c, actions).futures[id].madeFor == c.futures[id].madeFor == id + 1
    ensures Run(c, actions).futures[id].outcome ==
            if c.futures[id].outcome.Waiting? then Fate(id, actions) else c.futures[id].outcome
    decreases |actions|
  {
    if actions == [] {
    } else {
      var a, rest := actions[0], actions[1..];
      StepKeeps(c, a);
      StepSettles(c, a, id);
      FirstToSettleWins(Step(c, a), rest, id);
      assert Fate(id, actions) == if Settles(a, id) then Fate(id, [a]) else Fate(id, rest);
    }
  }

  lemma {:induction false} NobodyReads(c: Client, actions: seq<Action>, id: FutureId)
    requires Inv(c) && IsRun(c, actions) && !c.reading
    ensures !Fate(id, actions).Answered?
    ensures Fate(id, actions).Waiting? <==> Close !in actions && GiveUp(id) !in actions
    decreases |actions|
  {
    if actions == [] {
    } else {
      StepKeeps(c, actions[0]);
      NobodyReads(Step(c, actions[0]), actions[1..], id);
      assert actions == [actions[0]] + actions[1..];
    }
  }

  /** A request started after the loop has ended is never answered: it waits until its own
      timeout or a close, and for ever if there is neither. */
  lemma LateRequestIsNeverAnswered(c: Client, actions: seq<Action>)
    requires Inv(c) && !c.reading
    requires Inv(Step(c, Start)) && IsRun(Step(c, Start), actions)
    ensures var id := |c.futures|;
            var outcome := Run(Step(c, Start), actions).futures[id].outcome;
            && !outcome.Answered?
            && (outcome.Waiting? <==> Close !in actions && GiveUp(id) !in actions)
  {
    var id := |c.futures|;
    NobodyReads(Step(c, Start), actions, id);
    FirstToSettleWins(Step(c, Start), actions, id);
  }

  lemma {:induction false} LoopEndIsSeen(c: Client, actions: seq<Action>)
    requires Inv(c) && IsRun(c, actions) && c.reading && !Run(c, actions).reading
    ensures Hangup in actions
    decreases |actions|
  {
    if actions == [] {
      assert false;
    } else {
      StepKeeps(c, actions[0]);
      if !actions[0].Hangup? {
        LoopEndIsSeen(Step(c, actions[0]), actions[1..]);
        assert actions == [actions[0]] + actions[1..];
      }
    }
  }

  lemma {:induction false} HangupSettles(id: FutureId, actions: seq<Action>)
    requires Hangup in actions
    ensures !Fate(id, actions).Waiting?
    decreases |actions|
  {
    if actions == [] {
      assert false;
    } else if !Settles(actions[0], id) {
      assert actions == [actions[0]] + actions[1..];
      HangupSettles(id, actions[1..]);
    }
  }

  /** Once the loop has ended, a request that was neither timed out nor closed is settled exactly
      when it was started while the loop ran. */
  lemma SettledExactlyWhenInTime(c: Client, actions: seq<Action>)
    requires Inv(c) && Inv(Step(c, Start)) && IsRun(Step(c, Start), actions)
    requires Close !in actions && GiveUp(|c.futures|) !in actions
    requires !Run(Step(c, Start), actions).reading
    ensures !Run(Step(c, Start), actions).futures[|c.futures|].outcome.Waiting? <==> c.reading
  {
    var id := |c.futures|;
    FirstToSettleWins(Step(c, Start), actions, id);
    if c.reading {
      LoopEndIsSeen(Step(c, Start), actions);
      HangupSettles(id, actions);
    } else {
      NobodyReads(Step(c, Start), actions, id);
    }
  }

  /** Such a state: a fresh client whose adapter hangs up, then a request. */
  lemma RequestAfterHangup()
    ensures Inv(FRESH) && IsRun(FRESH, [Hangup, Start])
    ensures var c := Run(FRESH, [Hangup, Start]);
            !c.reading && c.futures == [Future(1, Waiting)] && c.pending == map[1 := 0]
  {
    var ended := Step(FRESH, Hangup);
    assert ended == Client(1, map[], [], false, false) && Inv(ended);
    assert [Hangup, Start][1..] == [Start] && [Start][1..] == [];
    assert IsRun(Step(ended, Start), []);
    assert Run(ended, [Start]) == Run(Step(ended, Start), []);
  }

  // --- the client ------------------------------------------------------------------------

  class DapClient {
    var next: nat
    var pending: map<nat, FutureId>
    var futures: seq<Future>
    var reading: bool
    var closed: bool

    ghost function State(): Client
      reads this
    {
      Client(next, pending, futures, reading, closed)
    }

    constructor ()
      ensures State() == FRESH && Inv(State())
    {
      next, pending, futures, reading, closed := 1, map[], [], true, false;
    }

    method StartRequest() returns (number: nat, future: FutureId)
      requires Inv(State())
      modifies this
      ensures State() == Step(old(State()), Start) && Inv(State())
      ensures number == old(next) && future == |old(futures)| && futures[future] == Future(number, Waiting)
    {
      StepKeeps(State(), Start);
      number, future := next, |futures|;
      next := next + 1;
      futures := futures + [Future(number, Waiting)];
      pending := pending[number := future];
    }

    method ReadResponse(request: Reference, msg: Message)
      requires Inv(State()) && reading
      modifies this
      ensures State() == Step(old(State()), Response(request, msg)) && Inv(State())
    {
      StepKeeps(State(), Response(request, msg));
      if request.Number? && request.value in pending {
        var future := pending[request.value];
        pending := pending - {request.value};
        if futures[future].outcome.Waiting? {
          futures := futures[future := futures[future].(outcome := Answered(msg))];
        }
      }
    }

    method TimeOut(future: FutureId)
      requires Inv(State()) && future < |futures|
      modifies this
      ensures State() == Step(old(State()), GiveUp(future)) && Inv(State())
    {
      StepKeeps(State(), GiveUp(future));
      futures := futures[future := Settled(futures[future], GivenUp)];
    }

    /** `_fail_pending`: every waiting future that is still pending fails. */
    method FailPending()
      requires Inv(State())
      modifies this`pending, this`futures
      ensures State() == PendingFailed(old(State()))
    {
      ghost var before := State();
      var left := pending.Keys;
      while left != {}
        invariant left <= pending.Keys && pending == before.pending
        invariant |futures| == |before.futures|
        invariant forall i :: 0 <= i < |futures| ==>
                    futures[i] == if i + 1 in pending && i + 1 !in left then Settled(before.futures[i], Failed)
                                  else before.futures[i]
        decreases |left|
      {
        var number :| number in left;
        var id := pending[number];
        if futures[id].outcome.Waiting? {
          futures := futures[id := futures[id].(outcome := Failed)];
        }
        left := left - {number};
      }
      pending := map[];
      PendingIds(before);
      assert futures == PendingFailed(before).futures;
    }

    method EndLoop()
      requires Inv(State()) && reading
      modifies this
      ensures State() == Step(old(State()), Hangup) && Inv(State())
      ensures forall i :: 0 <= i < |futures| ==> !futures[i].outcome.Waiting?
    {
      StepKeeps(State(), Hangup);
      reading := false;
      FailPending();
    }

    method CloseClient()
      requires Inv(State())
      modifies this
      ensures State() == Step(old(State()), Close) && Inv(State())
      ensures forall i :: 0 <= i < |futures| ==> !futures[i].outcome.Waiting?
    {
      StepKeeps(State(), Close);
      closed := true;
      FailPending();
    }
  }
}
