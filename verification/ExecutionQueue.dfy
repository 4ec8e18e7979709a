/**
 * The waiting executions: the priority score, the choice of the next run, and
 * the Redis hash that workers empty by scanning it and deleting one field.
 */
module ExecutionQueue {
  import opened Wrappers

  type RunId = nat
  type WorkerId = nat

  datatype Role = Viewer | Editor | Debugger | Owner

  datatype Language = Cpp | OtherLanguage

  datatype Payload = Payload(role: Role, debug: bool, language: Language, enqueuedAt: real, request: nat)

  datatype Settings = Settings(
    roleWeight: real, waitWeight: real, langPenalty: real, saturation: real, debugBonus: real)

  const DEFAULTS := Settings(10.0, 20.0, 2.0, 30.0, 0.5)

  const MAX_DEQUEUE_ATTEMPTS := 8

  function RoleRank(r: Role): nat {
    match r
    case Viewer => 0
    case Editor => 1
    case Debugger => 2
    case Owner => 3
  }

  function Waited(p: Payload, now: real): real {
    if now - p.enqueuedAt > 0.0 then now - p.enqueuedAt else 0.0
  }

  function WaitTerm(p: Payload, now: real, s: Settings): real
    requires s.saturation > 0.0
  {
    if Waited(p, now) / s.saturation < 1.0 then Waited(p, now) / s.saturation else 1.0
  }

  function ComputePriority(p: Payload, now: real, s: Settings): real
    requires s.saturation > 0.0
  {
    s.roleWeight * (RoleRank(p.role) as real / 3.0 + (if p.debug then s.debugBonus else 0.0))
    + s.waitWeight * WaitTerm(p, now, s)
    - s.langPenalty * (if p.language.Cpp? then 1.0 else 0.0)
  }

  // --- the choice ------------------------------------------------------------

  // A decoded snapshot of the hash, in the order its items are listed.
  type Snapshot = seq<(RunId, Payload)>

  ghost predicate Distinct(w: Snapshot) {
    forall i, j :: 0 <= i < j < |w| ==> w[i].0 != w[j].0
  }

  /** The running-best loop: the first of the entries with maximal score. */
  method SelectHighestPriority(waiting: Snapshot, now: real, s: Settings) returns (best: Option<nat>)
    requires s.saturation > 0.0
    ensures best.None? <==> waiting == []
    ensures best.Some? ==>
              && best.value < |waiting|
              && (forall j :: 0 <= j < |waiting| ==>
                    ComputePriority(waiting[j].1, now, s) <= ComputePriority(waiting[best.value].1, now, s))
              && (forall j :: 0 <= j < best.value ==>
                    ComputePriority(waiting[j].1, now, s) < ComputePriority(waiting[best.value].1, now, s))
  {
    best := None;
    var bestScore := 0.0;
    for i := 0 to |waiting|
      invariant best.None? <==> i == 0
      invariant best.Some? ==>
                  best.value < i && bestScore == ComputePriority(waiting[best.value].1, now, s)
      invariant best.Some? ==> forall j :: 0 <= j < i ==> ComputePriority(waiting[j].1, now, s) <= bestScore
      invariant best.Some? ==> forall j :: 0 <= j < best.value ==> ComputePriority(waiting[j].1, now, s) < bestScore
    {
      var score := ComputePriority(waiting[i].1, now, s);
      if best.None? || score > bestScore {
        best, bestScore := Some(i), score;
      }
    }
  }

  // --- ageing ------------------------------------------------------------------

  lemma WaitTermValue(p: Payload, now: real)
    ensures WaitTerm(p, now, DEFAULTS) == (if Waited(p, now) < 30.0 then Waited(p, now) / 30.0 else 1.0)
  {
  }

  lemma RoleTermBounds(p: Payload)
    ensures 0.0 <= 10.0 * (RoleRank(p.role) as real / 3.0 + (if p.debug then 0.5 else 0.0)) <= 15.0
  {
  }

  /** With the default weights a run that waited the saturation time beats every run that
      waited under 4.5 seconds, whatever their roles, languages and debug flags. */
  lemma SaturatedBeatsFresh(aged: Payload, recent: Payload, now: real)
    requires Waited(aged, now) >= 30.0 && Waited(recent, now) < 4.5
    ensures ComputePriority(aged, now, DEFAULTS) > ComputePriority(recent, now, DEFAULTS)
  {
    WaitTermValue(aged, now);
    WaitTermValue(recent, now);
    RoleTermBounds(aged);
    RoleTermBounds(recent);
  }

  /** 4.5 seconds is the exact threshold: at 4.5 the two extremes tie. */
  lemma ThresholdIsTight() returns (aged: Payload, recent: Payload, now: real)
    ensures Waited(aged, now) >= 30.0 && Waited(recent, now) == 4.5
    ensures ComputePriority(aged, now, DEFAULTS) == ComputePriority(recent, now, DEFAULTS)
  {
    aged, recent, now := Payload(Viewer, false, Cpp, 0.0, 0), Payload(Owner, true, OtherLanguage, 25.5, 1), 30.0;
    WaitTermValue(aged, now);
    WaitTermValue(recent, now);
  }

  /** While two runs wait, the older one's lead from ageing is never negative and never grows. */
  lemma LeadNeverGrows(older: Payload, younger: Payload, t: real, u: real, s: Settings)
    requires s.saturation > 0.0
    requires older.enqueuedAt <= younger.enqueuedAt <= t <= u
    ensures 0.0 <= WaitTerm(older, u, s) - WaitTerm(younger, u, s)
                <= WaitTerm(older, t, s) - WaitTerm(younger, t, s)
  {
    var a, b, c, d := Waited(older, t), Waited(younger, t), Waited(older, u), Waited(younger, u);
    var k := s.saturation;
    DivideMonotone(b, a, k);
    DivideMonotone(d, c, k);
    DivideMonotone(a, c, k);
    DivideMonotone(b, d, k);
    assert c / k - a / k == (u - t) / k && d / k - b / k == (u - t) / k by {
      DivideDifference(c, a, k);
      DivideDifference(d, b, k);
    }
  }

  lemma DivideMonotone(x: real, y: real, k: real)
    requires k > 0.0 && x <= y
    ensures x / k <= y / k
  {
  }

  lemma DivideDifference(x: real, y: real, k: real)
    requires k > 0.0
    ensures x / k - y / k == (x - y) / k
  {
  }

  // --- the shared hash -----------------------------------------------------------

  // One call of `_pop_highest_priority`; `lost` are the fields it found gone, and `before` the
  // runs already taken when it began.
  datatype Scan =
    | NotScanning
    | Looking(before: set<RunId>, attempts: nat, lost: set<RunId>)
    | Chosen(before: set<RunId>, attempts: nat, lost: set<RunId>, snapshot: map<RunId, Payload>, best: RunId, at: real)
    | Got(run: RunId, payload: Payload)
    | Nothing
    | GaveUp(before: set<RunId>, lost: set<RunId>)

  // `enqueued`, `handed` and `removed` record the whole history.
  datatype Queue = Queue(
    hash: map<RunId, Payload>,
    enqueued: map<RunId, Payload>,
    handed: map<RunId, WorkerId>,
    payloads: map<RunId, Payload>,
    removed: set<RunId>,
    scans: map<WorkerId, Scan>)

  datatype Action =
    | Enqueue(run: RunId, payload: Payload)
    | Remove(run: RunId)                     // `remove_from_queue`
    | Call(worker: WorkerId)
    | ScanAll(worker: WorkerId, best: RunId, now: real)
    | Delete(worker: WorkerId)

  // `best` has maximal score among the waiting runs.
  predicate Best(waiting: map<RunId, Payload>, best: RunId, now: real) {
    best in waiting &&
    forall id :: id in waiting ==>
      ComputePriority(waiting[id], now, DEFAULTS) <= ComputePriority(waiting[best], now, DEFAULTS)
  }

  predicate Enabled(q: Queue, a: Action) {
    match a
    case Enqueue(id, _) => id !in q.enqueued      // run ids are database keys
    case Remove(_) => true
    case Call(w) => w in q.scans ==> !q.scans[w].Looking? && !q.scans[w].Chosen?
    case ScanAll(w, best, now) => w in q.scans && q.scans[w].Looking? && (q.hash != map[] ==> Best(q.hash, best, now))
    case Delete(w) => w in q.scans && q.scans[w].Chosen?
  }

  // What a failed delete does to the call.
  function Retry(before: set<RunId>, attempts: nat, lost: set<RunId>): Scan {
    if attempts < MAX_DEQUEUE_ATTEMPTS then Looking(before, attempts, lost) else GaveUp(before, lost)
  }

  // The runs that left the hash.
  function Taken(q: Queue): set<RunId> {
    q.handed.Keys + q.removed
  }

  function Next(q: Queue, a: Action): Queue
    requires Enabled(q, a)
  {
    match a
    case Enqueue(id, p) => q.(hash := q.hash[id := p], enqueued := q.enqueued[id := p])
    case Remove(id) =>
      if id in q.hash then q.(hash := q.hash - {id}, removed := q.removed + {id}) else q
    case Call(w) => q.(scans := q.scans[w := Looking(Taken(q), 0, {})])
    case ScanAll(w, best, now) =>
      var l := q.scans[w];
      q.(scans := q.scans[w := if q.hash == map[] then Nothing
                               else Chosen(l.before, l.attempts, l.lost, q.hash, best, now)])
    case Delete(w) =>
      var c := q.scans[w];
      if c.best in q.hash && c.best in c.snapshot then
        q.(hash := q.hash - {c.best},
           handed := q.handed[c.best := w],
           payloads := q.payloads[c.best := c.snapshot[c.best]],
           scans := q.scans[w := Got(c.best, c.snapshot[c.best])])
      else q.(scans := q.scans[w := Retry(c.before, c.attempts + 1, c.lost + {c.best})])
  }

  const EMPTY := Queue(map[], map[], map[], map[], {}, map[])

  ghost predicate Runs(q: Queue, acts: seq<Action>, r: Queue)
    decreases |acts|
  {
    if acts == [] then q == r
    else Enabled(q, acts[0]) && Runs(Next(q, acts[0]), acts[1..], r)
  }

  // Every enqueued run is in exactly one of three places, with the payload it came with.
  ghost predicate Conserved(q: Queue) {
    && q.enqueued.Keys == q.hash.Keys + q.handed.Keys + q.removed
    && q.hash.Keys !! q.handed.Keys
    && q.hash.Keys !! q.removed
    && q.handed.Keys !! q.removed
    && q.payloads.Keys == q.handed.Keys
    && (forall id :: id in q.hash ==> q.hash[id] == q.enqueued[id])
    && (forall id :: id in q.handed ==> q.payloads[id] == q.enqueued[id])
  }

  // The runs a call lost were taken by others.
  ghost predicate TakenByOthers(q: Queue, w: WorkerId, lost: set<RunId>) {
    forall id :: id in lost ==> id !in q.hash && (id in q.removed || (id in q.handed && q.handed[id] != w))
  }

  ghost predicate ScanOk(q: Queue, w: WorkerId, s: Scan) {
    match s
    case NotScanning => true
    case Looking(before, n, lost) =>
      n == |lost| && n < MAX_DEQUEUE_ATTEMPTS && TakenByOthers(q, w, lost) && before <= Taken(q) && lost !! before
    case Chosen(before, n, lost, snapshot, best, at) =>
      && before <= Taken(q) && lost !! before && best !in before
      && n == |lost| && n < MAX_DEQUEUE_ATTEMPTS && TakenByOthers(q, w, lost)
      && best !in lost && Best(snapshot, best, at)
      && (best in q.hash || TakenByOthers(q, w, {best}))
      && best in q.enqueued && snapshot[best] == q.enqueued[best]
    case Got(id, p) => id in q.handed && q.handed[id] == w && id in q.enqueued && p == q.enqueued[id]
    case Nothing => true
    case GaveUp(before, lost) => |lost| == MAX_DEQUEUE_ATTEMPTS && TakenByOthers(q, w, lost) && lost !! before
  }

  ghost predicate Inv(q: Queue) {
    Conserved(q) && forall w :: w in q.scans ==> ScanOk(q, w, q.scans[w])
  }

  lemma ScansKept(q: Queue, q': Queue, who: Option<WorkerId>)
    requires Inv(q) && Conserved(q')
    requires forall w :: w in q'.scans && Some(w) != who ==> w in q.scans && q'.scans[w] == q.scans[w]
    requires forall id :: id in q.enqueued ==> id in q'.enqueued && q'.enqueued[id] == q.enqueued[id]
    requires forall id :: id in q.handed ==> id in q'.handed && q'.handed[id] == q.handed[id]
    requires q.removed <= q'.removed
    requires forall id :: id in q'.hash && id !in q.hash ==> id !in q.enqueued
    requires forall id :: id in q'.handed && id !in q.handed ==> Some(q'.handed[id]) == who
    ensures forall w :: w in q'.scans && Some(w) != who ==> ScanOk(q', w, q'.scans[w])
  {
    forall w | w in q'.scans && Some(w) != who
      ensures ScanOk(q', w, q'.scans[w])
    {
      assert ScanOk(q, w, q.scans[w]);
    }
  }

  lemma DeleteKeeps(q: Queue, w: WorkerId)
    requires Inv(q) && Enabled(q, Delete(w))
    ensures Inv(Next(q, Delete(w)))
  {
    var q', c := Next(q, Delete(w)), q.scans[w];
    assert ScanOk(q, w, c);
    if c.best in q.hash {
      assert c.best in q.enqueued && c.snapshot[c.best] == q.enqueued[c.best];
    } else {
      assert |c.lost + {c.best}| == |c.lost| + 1;
      assert TakenByOthers(q', w, c.lost + {c.best});
    }
    ScansKept(q, q', Some(w));
    assert ScanOk(q', w, q'.scans[w]);
  }

  lemma HashStepKeeps(q: Queue, a: Action)
    requires Inv(q) && Enabled(q, a) && (a.Enqueue? || a.Remove?)
    ensures Inv(Next(q, a))
  {
    ScansKept(q, Next(q, a), None);
  }

  lemma StepKeeps(q: Queue, a: Action)
    requires Inv(q) && Enabled(q, a)
    ensures Inv(Next(q, a))
  {
    var q' := Next(q, a);
    match a {
      case Delete(w) => DeleteKeeps(q, w);
      case ScanAll(w, best, _) =>
        assert ScanOk(q, w, q.scans[w]);
        ScansKept(q, q', Some(w));
      case Call(w) => ScansKept(q, q', Some(w));
      case _ => HashStepKeeps(q, a);
    }
  }

  lemma {:induction false} RunKeeps(q: Queue, acts: seq<Action>, r: Queue)
    requires Inv(q) && Runs(q, acts, r)
    ensures Inv(r)
    decreases |acts|
  {
    if acts == [] {
    } else {
      StepKeeps(q, acts[0]);
      RunKeeps(Next(q, acts[0]), acts[1..], r);
    }
  }

  /** Conservation: enqueued = waiting, handed out once, or removed; and never altered. */
  lemma QueueConserves(acts: seq<Action>, q: Queue)
    requires Runs(EMPTY, acts, q)
    ensures Conserved(q)
  {
    RunKeeps(EMPTY, acts, q);
  }

  /** A worker gets the payload that was enqueued, and no two workers get the same run. */
  lemma HandedOutOnce(acts: seq<Action>, q: Queue, v: WorkerId, w: WorkerId)
    requires Runs(EMPTY, acts, q)
    requires v in q.scans && w in q.scans && q.scans[v].Got? && q.scans[w].Got?
    ensures q.scans[v].run in q.enqueued && q.scans[v].payload == q.enqueued[q.scans[v].run]
    ensures q.scans[v].run == q.scans[w].run ==> v == w
  {
    RunKeeps(EMPTY, acts, q);
    assert ScanOk(q, v, q.scans[v]) && ScanOk(q, w, q.scans[w]);
  }

  /** A worker gives up only after eight different runs were taken from under it, all since its
      call began. */
  lemma GivingUpMeansOthersProgressed(acts: seq<Action>, q: Queue, w: WorkerId)
    requires Runs(EMPTY, acts, q) && w in q.scans && q.scans[w].GaveUp?
    ensures |q.scans[w].lost| == 8
    ensures forall id :: id in q.scans[w].lost ==> id in q.removed || (id in q.handed && q.handed[id] != w)
    ensures q.scans[w].lost !! q.scans[w].before
  {
    RunKeeps(EMPTY, acts, q);
    assert ScanOk(q, w, q.scans[w]);
  }

  predicate StartedAt(s: Scan, before: set<RunId>) {
    s.Looking? || s.Chosen? || s.GaveUp? ==> s.before == before
  }

  lemma {:induction false} KeepsItsStart(q: Queue, acts: seq<Action>, r: Queue, w: WorkerId, before: set<RunId>)
    requires w in q.scans && StartedAt(q.scans[w], before) && Runs(q, acts, r) && Call(w) !in acts
    ensures w in r.scans && StartedAt(r.scans[w], before)
    decreases |acts|
  {
    if acts == [] {
    } else {
      assert acts == [acts[0]] + acts[1..];
      KeepsItsStart(Next(q, acts[0]), acts[1..], r, w, before);
    }
  }

  lemma LostSinceTheStart(q: Queue, w: WorkerId, before: set<RunId>)
    requires Inv(q) && w in q.scans && q.scans[w].GaveUp? && q.scans[w].before == before
    ensures var lost := q.scans[w].lost;
            && |lost| == 8 && lost !! before && lost <= Taken(q)
            && forall id :: id in lost && id in q.handed ==> q.handed[id] != w
  {
    assert ScanOk(q, w, q.scans[w]);
  }

  // Calling is one more step of the run.
  lemma InvAfterCall(first: seq<Action>, p: Queue, acts: seq<Action>, q: Queue, w: WorkerId)
    requires Runs(EMPTY, first, p) && Enabled(p, Call(w)) && Runs(Next(p, Call(w)), acts, q)
    ensures Inv(q)
  {
    RunKeeps(EMPTY, first, p);
    StepKeeps(p, Call(w));
    RunKeeps(Next(p, Call(w)), acts, q);
  }

  /** From the call that ended so to its end, eight runs left the hash that had not left it
      before, none of them through this worker. */
  lemma TakenDuringTheCall(first: seq<Action>, p: Queue, acts: seq<Action>, q: Queue, w: WorkerId)
    requires Runs(EMPTY, first, p) && Enabled(p, Call(w)) && Runs(Next(p, Call(w)), acts, q) && Call(w) !in acts
    requires w in q.scans && q.scans[w].GaveUp?
    ensures var lost := q.scans[w].lost;
            && |lost| == 8 && lost !! Taken(p) && lost <= Taken(q)
            && forall id :: id in lost && id in q.handed ==> q.handed[id] != w
  {
    InvAfterCall(first, p, acts, q, w);
    KeepsItsStart(Next(p, Call(w)), acts, q, w, Taken(p));
    LostSinceTheStart(q, w, Taken(p));
  }

  /** The run a worker is about to take was not chosen over one that had waited 30 seconds
      unless it had waited 4.5 seconds itself. */
  lemma SaturatedIsNotPassedOver(acts: seq<Action>, q: Queue, w: WorkerId, id: RunId)
    requires Runs(EMPTY, acts, q) && w in q.scans && q.scans[w].Chosen?
    requires var c := q.scans[w]; id in c.snapshot && Waited(c.snapshot[id], c.at) >= 30.0
    ensures var c := q.scans[w]; c.best in c.snapshot && Waited(c.snapshot[c.best], c.at) >= 4.5
  {
    RunKeeps(EMPTY, acts, q);
    var c := q.scans[w];
    assert ScanOk(q, w, c);
    if Waited(c.snapshot[c.best], c.at) < 4.5 {
      SaturatedBeatsFresh(c.snapshot[id], c.snapshot[c.best], c.at);
    }
  }

  // --- the same as the code runs it -------------------------------------------------

  /** The hash in Redis; `everQueued` remembers what was ever put in it. */
  class WaitingHash {
    var fields: map<RunId, Payload>
    var everQueued: map<RunId, Payload>

    ghost predicate Valid()
      reads this
    {
      forall id :: id in fields ==> id in everQueued && fields[id] == everQueued[id]
    }

    constructor ()
      ensures Valid() && fields == map[] && everQueued == map[]
    {
      fields, everQueued := map[], map[];
    }

    method Enqueue(id: RunId, p: Payload)
      requires Valid() && id !in everQueued
      modifies this
      ensures Valid() && fields == old(fields)[id := p] && everQueued == old(everQueued)[id := p]
    {
      fields, everQueued := fields[id := p], everQueued[id := p];
    }

    /** HDEL: who removes the field wins it. */
    method RemoveFromQueue(id: RunId) returns (removed: bool)
      requires Valid()
      modifies this`fields
      ensures Valid() && removed == (id in old(fields)) && fields == old(fields) - {id}
    {
      removed := id in fields;
      fields := fields - {id};
    }

    // What others may do between two commands: enqueue new runs, take waiting ones.
    twostate predicate OthersActed()
      reads this
    {
      && Valid()
      && (forall id :: id in old(everQueued) ==> id in everQueued && everQueued[id] == old(everQueued)[id])
      && (forall id :: id in fields && id in old(everQueued) ==> id in old(fields))
    }

    method Others(id: RunId, p: Payload)
      requires Valid()
      modifies this
      ensures OthersActed()
    {
      var _ := RemoveFromQueue(id);
      if id !in everQueued {
        Enqueue(id, p);
      }
    }

    // HGETALL's reply as a list.
    method List() returns (items: Snapshot)
      ensures Distinct(items) && |items| == |fields|
      ensures forall id :: id in fields ==> (id, fields[id]) in items
      ensures forall i :: 0 <= i < |items| ==> items[i].0 in fields && items[i].1 == fields[items[i].0]
    {
      items := [];
      var left := fields.Keys;
      while left != {}
        invariant left <= fields.Keys && |items| + |left| == |fields|
        invariant Distinct(items)
        invariant forall id :: id in fields && id !in left ==> (id, fields[id]) in items
        invariant forall i :: 0 <= i < |items| ==>
                    items[i].0 in fields && items[i].0 !in left && items[i].1 == fields[items[i].0]
        decreases left
      {
        var id :| id in left;
        left := left - {id};
        items := items + [(id, fields[id])];
      }
    }

    /** `_pop_highest_priority`, with the others acting between the scan and the delete, and
        `clock` read at every attempt. What is returned scored, when it was chosen, no less than
        any run that waited all through the call. */
    method Pop(clock: nat -> real, s: Settings)
      returns (run: Option<(RunId, Payload)>, ghost lost: set<RunId>, ghost attempt: nat)
      requires Valid() && s.saturation > 0.0
      modifies this
      ensures Valid()
      ensures run.Some? ==> run.value.0 in everQueued && run.value.1 == everQueued[run.value.0]
      ensures run.Some? ==> run.value.0 !in fields && run.value.0 !in lost
      ensures run.Some? ==> attempt < MAX_DEQUEUE_ATTEMPTS && forall id :: id in fields && id in old(fields) ==>
                ComputePriority(fields[id], clock(attempt), s) <= ComputePriority(run.value.1, clock(attempt), s)
      ensures forall id :: id in lost ==> id in everQueued && id !in fields
      ensures forall id :: id in lost && id in old(everQueued) ==> id in old(fields)
      ensures run.None? ==> fields == map[] || |lost| == MAX_DEQUEUE_ATTEMPTS
    {
      lost, attempt := {}, 0;
      for n := 0 to MAX_DEQUEUE_ATTEMPTS
        invariant Valid() && |lost| == n
        invariant forall id :: id in old(everQueued) ==> id in everQueued && everQueued[id] == old(everQueued)[id]
        invariant forall id :: id in fields && id in old(everQueued) ==> id in old(fields)
        invariant forall id :: id in lost ==> id in everQueued && id !in fields
        invariant forall id :: id in lost && id in old(everQueued) ==> id in old(fields)
      {
        attempt := n;
        var waiting := List();
        var best := SelectHighestPriority(waiting, clock(n), s);
        if best.None? {
          return None, lost, n;
        }
        var (id, payload) := waiting[best.value];
        var other, p := *, *;
        Others(other, p);
        var removed := RemoveFromQueue(id);
        if removed {
          return Some((id, payload)), lost, n;
        }
        assert |lost + {id}| == |lost| + 1;
        lost := lost + {id};
      }
      return None, lost, attempt;
    }
  }
}
