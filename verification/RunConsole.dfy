/**
 * The console's list of runs, folded from the events about them, and its
 * agreement with the database.
 */
module RunConsole {
  import opened Wrappers
  import opened ExecutionState
  import ExecutionProtocol

  datatype Run = Run(
    id: nat,
    fileId: Option<nat>,
    path: Option<string>,
    username: Option<string>,
    status: Status,
    stdout: string,
    stderr: string,
    exitCode: Option<int>,
    duration: Option<int>,
    withInput: bool,
    notes: seq<string>)

  datatype Body =
    | EnqueuedBy(fileId: nat, knownPath: Option<string>, starter: string)
    | LocalQueued(fileId: nat, path: string, username: Option<string>, withInput: bool)
    | StatusIs(status: Status)
    | Output(stdout: string, stderr: string, exitCode: Option<int>, duration: Option<int>)
    | OutputChunk(toStderr: bool, text: string)
    | DebugStarted
    | DebugPaused
    | OtherOp   // an `op` but no `type`
    | Unknown   // another `type`

  // Some events are not about a run.
  datatype RunEvent = RunEvent(executionId: Option<nat>, body: Body)

  const PAUSED := "paused at a breakpoint"

  function Blank(id: nat): Run {
    Run(id, None, None, None, Queued, "", "", None, None, false, [])
  }

  // What an event makes of its run; None when it leaves the list as it is.
  function Advance(run: Run, body: Body): Option<Run> {
    match body
    case EnqueuedBy(f, p, u) =>
      Some(run.(fileId := Some(f), path := if p.Some? then p else run.path, username := Some(u)))
    case LocalQueued(f, p, u, i) =>
      Some(run.(fileId := Some(f), path := Some(p), username := if run.username.Some? then run.username else u,
                withInput := i))
    case StatusIs(s) =>
      Some(if Terminal(run.status) && !Terminal(s) then run else run.(status := s))
    case Output(o, e, x, d) =>
      Some(run.(stdout := o, stderr := e, exitCode := if x.Some? then x else run.exitCode,
                duration := if d.Some? then d else run.duration))
    case OutputChunk(toStderr, text) =>
      Some(if toStderr then run.(stderr := run.stderr + text) else run.(stdout := run.stdout + text))
    case DebugStarted => Some(run.(notes := run.notes + ["under the debugger"]))
    case DebugPaused => if PAUSED in run.notes then None else Some(run.(notes := run.notes + [PAUSED]))
    case OtherOp => Some(run)
    case Unknown => None
  }

  function IndexOf(runs: seq<Run>, id: nat): (i: int)
    ensures -1 <= i < |runs|
    ensures i >= 0 ==> runs[i].id == id && forall j :: 0 <= j < i ==> runs[j].id != id
    ensures i < 0 ==> forall j :: 0 <= j < |runs| ==> runs[j].id != id
  {
    if runs == [] then -1
    else if runs[0].id == id then 0
    else
      var i := IndexOf(runs[1..], id);
      if i < 0 then -1 else i + 1
  }

  // At its place in the list, or at the end.
  function Put(runs: seq<Run>, idx: int, run: Run): seq<Run>
    requires idx < |runs|
  {
    if idx < 0 then runs + [run] else runs[idx := run]
  }

  function ApplyRunEvent(runs: seq<Run>, e: RunEvent): seq<Run> {
    if e.executionId.None? then runs
    else
      var id := e.executionId.value;
      var idx := IndexOf(runs, id);
      var next := Advance(if idx < 0 then Blank(id) else runs[idx], e.body);
      if next.None? then runs else Put(runs, idx, next.value)
  }

  function Fold(runs: seq<Run>, events: seq<RunEvent>): seq<Run>
    decreases |events|
  {
    if events == [] then runs else Fold(ApplyRunEvent(runs, events[0]), events[1..])
  }

  // --- one run at a time ---------------------------------------------------

  function Find(runs: seq<Run>, id: nat): Option<Run> {
    var i := IndexOf(runs, id);
    if i < 0 then None else Some(runs[i])
  }

  // The same event seen by somebody who only watches run `id`.
  function Watch(run: Option<Run>, id: nat, e: RunEvent): Option<Run> {
    if e.executionId != Some(id) then run
    else
      var next := Advance(if run.Some? then run.value else Blank(id), e.body);
      if next.Some? then next else run
  }

  function WatchAll(run: Option<Run>, id: nat, events: seq<RunEvent>): Option<Run>
    decreases |events|
  {
    if events == [] then run else WatchAll(Watch(run, id, events[0]), id, events[1..])
  }

  ghost predicate DistinctIds(runs: seq<Run>) {
    forall i, j :: 0 <= i < j < |runs| ==> runs[i].id != runs[j].id
  }

  lemma IndexIsFirst(runs: seq<Run>, id: nat, i: nat)
    requires i < |runs| && runs[i].id == id && forall j :: 0 <= j < i ==> runs[j].id != id
    ensures IndexOf(runs, id) == i
  {
  }

  lemma AdvanceKeepsId(run: Run, body: Body)
    ensures Advance(run, body).Some? ==> Advance(run, body).value.id == run.id
  {
  }

  lemma PutFinds(runs: seq<Run>, run: Run, id: nat)
    requires DistinctIds(runs)
    ensures var runs' := Put(runs, IndexOf(runs, run.id), run);
            DistinctIds(runs') && Find(runs', id) == if id == run.id then Some(run) else Find(runs, id)
  {
    var idx, i := IndexOf(runs, run.id), IndexOf(runs, id);
    var runs' := Put(runs, idx, run);
    if id == run.id {
      IndexIsFirst(runs', id, if idx < 0 then |runs| else idx);
    } else if i >= 0 {
      IndexIsFirst(runs', id, i);
    }
  }

  /** An event changes the run it names as if the others were not there, and no other. */
  lemma EventTouchesItsRunOnly(runs: seq<Run>, e: RunEvent, id: nat)
    requires DistinctIds(runs)
    ensures DistinctIds(ApplyRunEvent(runs, e))
    ensures Find(ApplyRunEvent(runs, e), id) == Watch(Find(runs, id), id, e)
  {
    if e.executionId.Some? {
      var k := e.executionId.value;
      var idx := IndexOf(runs, k);
      var next := Advance(if idx < 0 then Blank(k) else runs[idx], e.body);
      AdvanceKeepsId(if idx < 0 then Blank(k) else runs[idx], e.body);
      if next.Some? {
        PutFinds(runs, next.value, id);
      }
    }
  }

  lemma {:induction false} FoldWatches(runs: seq<Run>, events: seq<RunEvent>, id: nat)
    requires DistinctIds(runs)
    ensures DistinctIds(Fold(runs, events))
    ensures Find(Fold(runs, events), id) == WatchAll(Find(runs, id), id, events)
    decreases |events|
  {
    if events == [] {
    } else {
      EventTouchesItsRunOnly(runs, events[0], id);
      FoldWatches(ApplyRunEvent(runs, events[0]), events[1..], id);
    }
  }

  // --- the final status ------------------------------------------------------

  ghost predicate Says(e: RunEvent, id: nat, status: Status) {
    e == RunEvent(Some(id), StatusIs(status))
  }

  lemma {:induction false} WatchSettles(run: Option<Run>, id: nat, events: seq<RunEvent>, final: Status)
    requires Terminal(final)
    requires forall i, st :: 0 <= i < |events| && Terminal(st) && Says(events[i], id, st) ==> st == final
    requires run.Some? && Terminal(run.value.status) ==> run.value.status == final
    requires (run.Some? && run.value.status == final) || exists i :: 0 <= i < |events| && Says(events[i], id, final)
    ensures WatchAll(run, id, events).Some? && WatchAll(run, id, events).value.status == final
    decreases |events|
  {
    if events == [] {
    } else {
      var run' := Watch(run, id, events[0]);
      assert Says(events[0], id, final) ==> run'.Some? && run'.value.status == final;
      if events[0].executionId == Some(id) && events[0].body.StatusIs? {
        assert Says(events[0], id, events[0].body.status);
      }
      forall i, st | 0 <= i < |events[1..]| && Terminal(st) && Says(events[1..][i], id, st)
        ensures st == final
      {
        assert Says(events[i + 1], id, st);
      }
      if !(run'.Some? && run'.value.status == final) {
        var i :| 0 <= i < |events| && Says(events[i], id, final);
        assert Says(events[1..][i - 1], id, final);
      }
      WatchSettles(run', id, events[1..], final);
    }
  }

  /** Fold any of the status events that were published for a run, in any order and any
      number of times, mixed with anything else: once a final one is among them, the
      console shows the status in the database. */
  lemma ConsoleAgreesWithDatabase(
      s0: ExecutionProtocol.Proto, acts: seq<ExecutionProtocol.Action>, s: ExecutionProtocol.Proto,
      id: nat, events: seq<RunEvent>, k: nat)
    requires ExecutionProtocol.Init(s0) && ExecutionProtocol.Runs(s0, acts, s)
    requires forall i, st :: 0 <= i < |events| && Says(events[i], id, st) ==> st in s.shared.published
    requires k < |events| && events[k].body.StatusIs? && events[k].executionId == Some(id)
    requires Terminal(events[k].body.status)
    ensures Find(Fold([], events), id).Some?
    ensures Find(Fold([], events), id).value.status == s.shared.record.row.status
  {
    var final := events[k].body.status;
    assert Says(events[k], id, final);
    forall i, st | 0 <= i < |events| && Terminal(st) && Says(events[i], id, st)
      ensures st == final
    {
      ExecutionProtocol.PublishedFinalIsTheRows(s0, acts, s, st);
      ExecutionProtocol.PublishedFinalIsTheRows(s0, acts, s, final);
    }
    ExecutionProtocol.PublishedFinalIsTheRows(s0, acts, s, final);
    FoldWatches([], events, id);
    WatchSettles(None, id, events, final);
  }
}
