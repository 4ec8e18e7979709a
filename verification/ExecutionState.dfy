/**
 * The status of one run: the transition table, the compare-and-set that every
 * process uses, and the audit log that is written in the same transaction.
 */
module ExecutionState {
  import opened Wrappers

  datatype Status = Queued | Starting | Compiling | Running | Completed | Failed | Timeout | Cancelled

  datatype Actor = Api | Worker | Sweeper

  datatype Event = Event(previous: Option<Status>, target: Status, actor: Actor)

  datatype Row = Row(status: Status, workerId: Option<nat>, startedAt: Option<nat>, finishedAt: Option<nat>)

  // A row and its audit log, which only change together.
  datatype Record = Record(row: Row, log: seq<Event>)

  function Allowed(s: Status): set<Status> {
    match s
    case Queued => {Starting, Compiling, Cancelled, Failed}
    case Starting => {Running, Compiling, Failed, Timeout, Cancelled}
    case Compiling => {Running, Failed, Timeout, Cancelled}
    case Running => {Completed, Failed, Timeout, Cancelled}
    case _ => {}
  }

  predicate CanTransition(current: Status, target: Status) {
    target in Allowed(current)
  }

  predicate Terminal(s: Status) {
    s.Completed? || s.Failed? || s.Timeout? || s.Cancelled?
  }

  function Rank(s: Status): nat {
    match s
    case Queued => 0
    case Starting => 1
    case Compiling => 2
    case Running => 3
    case _ => 4
  }

  const CLAIM := Event(Some(Queued), Starting, Worker)

  function Submitted(): Record {
    Record(Row(Queued, None, None, None), [Event(None, Queued, Api)])
  }

  // Does a writer that saw `seen` get its change in?
  predicate Wins(r: Record, seen: Status, target: Status) {
    CanTransition(seen, target) && r.row.status == seen
  }

  function Change(r: Record, seen: Status, target: Status, finishedAt: Option<nat>, actor: Actor): Record {
    if !Wins(r, seen, target) then r
    else Record(
        r.row.(status := target, finishedAt := if finishedAt.Some? then finishedAt else r.row.finishedAt),
        r.log + [Event(Some(seen), target, actor)])
  }

  function Claim(r: Record, worker: nat, now: nat): Record {
    if r.row.status != Queued then r
    else Record(r.row.(status := Starting, workerId := Some(worker), startedAt := Some(now)), r.log + [CLAIM])
  }

  // --- histories -----------------------------------------------------------

  ghost predicate Chained(log: seq<Event>) {
    && |log| > 0
    && log[0] == Event(None, Queued, Api)
    && (forall i :: 0 < i < |log| ==>
          log[i].previous == Some(log[i - 1].target) && CanTransition(log[i - 1].target, log[i].target))
  }

  ghost predicate Started(log: seq<Event>) {
    exists i :: 0 < i < |log| && log[i].previous == Some(Queued) && log[i].target == Starting
  }

  ghost predicate LegalHistory(r: Record) {
    && Chained(r.log)
    && r.log[|r.log| - 1].target == r.row.status
    && (r.row.finishedAt.Some? <==> Terminal(r.row.status))
    && (r.row.startedAt.Some? <==> Started(r.log))
    && (r.row.workerId.Some? <==> Started(r.log))
  }

  lemma StartedGrows(log: seq<Event>, e: Event)
    requires |log| > 0
    ensures Started(log + [e]) <==> Started(log) || (e.previous == Some(Queued) && e.target == Starting)
  {
    var log' := log + [e];
    if Started(log) {
      var i :| 0 < i < |log| && log[i].previous == Some(Queued) && log[i].target == Starting;
      assert log'[i] == log[i];
    }
    if e.previous == Some(Queued) && e.target == Starting {
      assert log'[|log|] == e;
    }
  }

  /** Any attempt from any stale reading, won or lost, leaves a legal history. */
  lemma ChangeKeepsLegal(r: Record, seen: Status, target: Status, finishedAt: Option<nat>, actor: Actor)
    requires LegalHistory(r) && target != Starting
    requires finishedAt.Some? <==> Terminal(target)
    ensures LegalHistory(Change(r, seen, target, finishedAt, actor))
  {
    if Wins(r, seen, target) {
      StartedGrows(r.log, Event(Some(seen), target, actor));
    }
  }

  lemma ClaimKeepsLegal(r: Record, worker: nat, now: nat)
    requires LegalHistory(r)
    ensures LegalHistory(Claim(r, worker, now))
  {
    StartedGrows(r.log, CLAIM);
  }

  /** Along a chain the rank strictly rises, so a run changes status at most four times. */
  lemma {:induction false} RanksRise(log: seq<Event>, i: nat, j: nat)
    requires Chained(log) && i <= j < |log|
    ensures Rank(log[i].target) + (j - i) <= Rank(log[j].target) <= 4
    decreases j
  {
    if i == j {
    } else {
      RanksRise(log, i, j - 1);
      assert CanTransition(log[j - 1].target, log[j].target);
    }
  }

  /** A terminal event is the last one, and so the only one. */
  lemma TerminalIsLast(log: seq<Event>, i: nat)
    requires Chained(log) && i < |log|
    ensures |log| <= 5
    ensures Terminal(log[i].target) ==> i == |log| - 1
  {
    RanksRise(log, 0, |log| - 1);
    RanksRise(log, i, |log| - 1);
  }

  /** At most one claim is ever recorded, and it comes right after the submission. */
  lemma ClaimIsFirst(log: seq<Event>, i: nat)
    requires Chained(log) && 0 < i < |log| && log[i].previous == Some(Queued)
    ensures i == 1
  {
    RanksRise(log, 0, i - 1);
  }

  /** A run cancelled (or failed) while queued was never started by anybody. */
  lemma EndedWhileQueuedNeverStarts(r: Record, i: nat)
    requires LegalHistory(r) && i < |r.log|
    requires r.log[i].previous == Some(Queued) && Terminal(r.log[i].target)
    ensures !Started(r.log) && r.row.workerId.None? && r.row.status == r.log[i].target
  {
    assert 0 < i;
    ClaimIsFirst(r.log, i);
    TerminalIsLast(r.log, i);
  }

  // Every commit of another process: nothing, or a later status.
  ghost predicate Evolves(r: Record, r': Record) {
    r' == r || (LegalHistory(r') && Rank(r.row.status) < Rank(r'.row.status))
  }

  /** A row of the `executions` table with its events. */
  class Execution {
    var status: Status
    var workerId: Option<nat>
    var startedAt: Option<nat>
    var finishedAt: Option<nat>
    var log: seq<Event>

    ghost function Rec(): Record
      reads this
    {
      Record(Row(status, workerId, startedAt, finishedAt), log)
    }

    constructor ()
      ensures Rec() == Submitted() && LegalHistory(Rec())
    {
      status, workerId, startedAt, finishedAt := Queued, None, None, None;
      log := [Event(None, Queued, Api)];
    }

    /** `change_status` by a writer that loaded the row when it was `seen`. */
    method ChangeStatus(seen: Status, target: Status, finished: Option<nat>, actor: Actor) returns (changed: bool)
      modifies this
      ensures changed == Wins(old(Rec()), seen, target)
      ensures Rec() == Change(old(Rec()), seen, target, finished, actor)
    {
      if !CanTransition(seen, target) {
        return false;
      }
      if status != seen {
        return false;
      }
      status := target;
      if finished.Some? {
        finishedAt := finished;
      }
      log := log + [Event(Some(seen), target, actor)];
      return true;
    }

    /** The worker's claim: queued to starting, or nothing. */
    method ClaimFor(worker: nat, now: nat) returns (claimed: bool)
      modifies this
      ensures claimed == (old(status) == Queued)
      ensures Rec() == Claim(old(Rec()), worker, now)
    {
      claimed := status == Queued;
      if claimed {
        status, workerId, startedAt := Starting, Some(worker), Some(now);
        log := log + [CLAIM];
      }
    }

    // What other sessions may commit meanwhile.
    method OthersCommit()
      requires LegalHistory(Rec())
      modifies this
      ensures LegalHistory(Rec()) && Evolves(old(Rec()), Rec())
    {
      var target: Status, worker: nat, now: nat := *, *, *;
      var finished := if Terminal(target) then Some(now) else None;
      if target == Starting {
        ClaimKeepsLegal(Rec(), worker, now);
        var _ := ClaimFor(worker, now);
      } else {
        ChangeKeepsLegal(Rec(), status, target, finished, Worker);
        var _ := ChangeStatus(status, target, finished, Worker);
      }
    }

    /** `cancel_execution`: retry from the refreshed status until cancelled or finished.
        The rank of the status seen bounds the retries, whatever the others do. */
    method Cancel(now: nat) returns (won: bool, retries: nat)
      requires LegalHistory(Rec())
      modifies this
      ensures LegalHistory(Rec()) && Terminal(status)
      ensures won ==> status == Cancelled && log[|log| - 1].actor == Api
      ensures retries <= 4
    {
      var seen := status;
      won, retries := false, 0;
      while !Terminal(seen)
        invariant LegalHistory(Rec()) && Rank(seen) <= Rank(status)
        invariant Rank(seen) == 4 ==> seen == status
        invariant retries <= Rank(seen)
        decreases 4 - Rank(seen)
      {
        OthersCommit();
        ChangeKeepsLegal(Rec(), seen, Cancelled, Some(now), Api);
        won := ChangeStatus(seen, Cancelled, Some(now), Api);
        if won {
          return;
        }
        OthersCommit();
        seen, retries := status, retries + 1;
      }
    }
  }
}
