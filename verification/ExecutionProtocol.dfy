/**
 * One run, from its committed submission on: the API that delivers it, any
 * number of workers, cancel requests and the orphan sweeper, all racing on the
 * same row; the field in the queue's hash; the cancel channel; the sandbox
 * thread of each worker; and the run's containers.
 */
module ExecutionProtocol {
  import opened Wrappers
  import opened ExecutionState

  type WorkerId = nat
  type RequestId = nat

  // A sandbox operation, and the container it makes: concord-exec-N or concord-build-N.
  datatype Kind = Exec | Build

  // Which of the run's two containers exist.
  datatype Containers = Containers(exec: bool, build: bool) {
    predicate Has(k: Kind) { if k.Exec? then exec else build }

    function Create(k: Kind): Containers { if k.Exec? then this.(exec := true) else this.(build := true) }

    function Remove(k: Kind): Containers { if k.Exec? then this.(exec := false) else this.(build := false) }

    predicate Within(c: Containers) { (exec ==> c.exec) && (build ==> c.build) }

    predicate Only(k: Kind) { Within(NONE.Create(k)) }
  }

  const NONE := Containers(false, false)

  // The thread that `_run_cancellable` hands a sandbox operation to.
  datatype Thread = NoThread | Begun(kind: Kind) | Made(kind: Kind) | Ended(kind: Kind, ok: bool)

  // Where the kill loop is; a kill removes the two containers one after the other.
  datatype Stage = LoopTest | LoopExec | LoopBuild | LastExec | LastBuild

  datatype Pc =
    | Idle
    | Taken                                    // holds the payload, has not claimed
    | Announcing(status: Status)               // committed, about to publish
    | Subscribing
    | Checking                                 // about to read the row again
    | Preparing
    | Reading(target: Status)                  // `_transition`: about to load the row
    | Writing(target: Status, seen: Status)    // ... about to compare and set
    | Entering(kind: Kind)                     // `_run_cancellable`: first look at the event
    | Waiting(kind: Kind)
    | Killing(kind: Kind, stage: Stage)
    | Debugging
    | Raised                                   // `ExecutionCancelled` was caught
    | Finished
    | Dead

  datatype WorkerState = WorkerState(
    pc: Pc,
    claimed: bool,
    subscribed: bool,
    inbox: bool,        // a cancel message delivered to the subscription
    cancelSet: bool,    // `cancel_event`
    debug: bool,
    thread: Thread)

  // `start_run` after its commit.
  datatype Submitter = Delivering | Compensating | FoundQueued | Answered202 | Answered503

  // `cancel_execution`.
  datatype Request = Asked | Seen(status: Status, retries: nat) | Committed | Removed | Signalled | Reported | TooLate

  datatype Sweep = Resting | Found(status: Status) | Swept

  // What every process sees: the database, Redis and Docker.
  datatype Shared = Shared(
    record: Record,
    clock: nat,
    queued: bool,             // the hash holds this run's field
    signalled: bool,          // something was published on the cancel channel
    containers: Containers,
    published: set<Status>)   // status events published for the console

  datatype Proto = Proto(
    shared: Shared,
    submitter: Submitter,
    workers: map<WorkerId, WorkerState>,
    requests: map<RequestId, Request>,
    sweep: Sweep)

  datatype Action =
    | Tick
    | Delivers(effect: bool, error: bool)  // the enqueue, and whether an error came back
    | Compensates
    | Fails
    | Redelivers                           // the hash shows the field once more
    | DropsField                           // the clean-up after a 503, when Redis lets it
    | WorkerArrives(worker: WorkerId)
    | Pops(worker: WorkerId)
    | Claims(worker: WorkerId)
    | Publishes(worker: WorkerId)
    | Subscribes(worker: WorkerId, ok: bool)
    | Rereads(worker: WorkerId)
    | Prepares(worker: WorkerId, compiles: bool, debug: bool)
    | Loads(worker: WorkerId)
    | Stores(worker: WorkerId)
    | Hears(worker: WorkerId)              // the listener task sets the event
    | Enters(worker: WorkerId)
    | Makes(worker: WorkerId)              // the thread's container appears
    | Ends(worker: WorkerId, ok: bool, left: bool)
    | Wakes(worker: WorkerId, result: Status)
    | Kills(worker: WorkerId)              // one step of the kill loop
    | DebugEnds(worker: WorkerId, result: Status)
    | Gives(worker: WorkerId)              // the cancelled handler
    | Errs(worker: WorkerId)
    | Dies(worker: WorkerId)
    | CancelAsked(request: RequestId)
    | CancelReads(request: RequestId)
    | CancelWrites(request: RequestId)
    | CancelGoesOn(request: RequestId)
    | SweepFinds
    | SweepWrites
    | SweepSignals
    | SweepKills(kind: Kind)

  const FRESH := WorkerState(Idle, false, false, false, false, false, NoThread)

  function ResultsOf(ok: bool): set<Status> {
    if ok then {Completed, Failed, Timeout} else {Failed}
  }

  predicate Working(s: Status) {
    s.Starting? || s.Compiling? || s.Running?
  }

  // The statuses a worker passes through.
  predicate OnTheWay(s: Status) {
    s.Compiling? || s.Running?
  }

  predicate OnItsWay(r: Request) {
    r.Committed? || r.Removed? || r.Signalled?
  }

  // Places inside the handler's `try` where anything may raise, with no thread at work.
  predicate MayErr(pc: Pc) {
    pc.Subscribing? || pc.Checking? || pc.Preparing? || pc.Debugging? || pc.Announcing?
  }

  ghost predicate WorkerEnabled(g: Shared, a: Action, w: WorkerState) {
    match a
    case Pops(_) => w.pc.Idle? && g.queued
    case Claims(_) => w.pc.Taken?
    case Publishes(_) => w.pc.Announcing?
    case Subscribes(_, _) => w.pc.Subscribing?
    case Rereads(_) => w.pc.Checking?
    case Prepares(_, _, _) => w.pc.Preparing?
    case Loads(_) => w.pc.Reading?
    case Stores(_) => w.pc.Writing?
    case Hears(_) => w.inbox && w.subscribed && !w.pc.Finished? && !w.pc.Dead?
    case Enters(_) => w.pc.Entering?
    case Makes(_) => w.thread.Begun? && !g.containers.Has(w.thread.kind)
    case Ends(_, ok, left) =>
      || (w.thread.Begun? && !ok && !left)
      || (w.thread.Made? && (ok && w.thread.kind.Build? ==> !left))
    case Wakes(_, result) =>
      w.pc.Waiting? && (w.cancelSet || (w.thread.Ended? && result in ResultsOf(w.thread.ok)))
    case Kills(_) => w.pc.Killing?
    case DebugEnds(_, result) => w.pc.Debugging? && Terminal(result)
    case Gives(_) => w.pc.Raised?
    case Errs(_) => MayErr(w.pc)
    case Dies(_) => !w.pc.Dead?
    case _ => false
  }

  predicate OfWorker(a: Action) {
    a.Pops? || a.Claims? || a.Publishes? || a.Subscribes? || a.Rereads? || a.Prepares? || a.Loads? || a.Stores?
    || a.Hears? || a.Enters? || a.Makes? || a.Ends? || a.Wakes? || a.Kills? || a.DebugEnds? || a.Gives?
    || a.Errs? || a.Dies?
  }

  ghost predicate Enabled(s: Proto, a: Action) {
    if OfWorker(a) then a.worker in s.workers && WorkerEnabled(s.shared, a, s.workers[a.worker])
    else
      match a
      case Tick => true
      case Delivers(effect, error) => s.submitter.Delivering? && (effect || error)
      case Compensates => s.submitter.Compensating?
      case Fails => s.submitter.FoundQueued?
      case Redelivers => true
      case DropsField => s.submitter.Answered503?
      case WorkerArrives(id) => id !in s.workers
      case CancelAsked(id) => id !in s.requests
      case CancelReads(id) => id in s.requests && s.requests[id].Asked?
      case CancelWrites(id) => id in s.requests && s.requests[id].Seen?
      case CancelGoesOn(id) => id in s.requests && OnItsWay(s.requests[id])
      case SweepFinds => s.sweep.Resting? && Working(s.shared.record.row.status)
      case SweepWrites => s.sweep.Found?
      case SweepSignals => s.sweep.Swept?
      case SweepKills(_) => Terminal(s.shared.record.row.status)
      case _ => false
  }

  function StampFor(target: Status, now: nat): Option<nat> {
    if Terminal(target) then Some(now) else None
  }

  // What follows the publishing of a committed status.
  function AfterPublishing(status: Status, debug: bool): Pc {
    match status
    case Starting => Subscribing
    case Compiling => Entering(Build)
    case Running => if debug then Debugging else Entering(Exec)
    case _ => Finished
  }

  // Losing the compare-and-set to a status on the way raises `ExecutionCancelled`;
  // losing it to a final status is the end.
  function AfterLosing(target: Status): Pc {
    if OnTheWay(target) then Raised else Finished
  }

  // The step of one worker: what it does to the shared state and to itself.
  ghost function WorkerNext(g: Shared, a: Action, id: WorkerId, w: WorkerState): (Shared, WorkerState)
    requires WorkerEnabled(g, a, w)
  {
    match a
    case Pops(_) => (g.(queued := false), w.(pc := Taken))
    case Claims(_) =>
      if g.record.row.status == Queued then
        (g.(record := Claim(g.record, id, g.clock)), w.(pc := Announcing(Starting), claimed := true))
      else (g, w.(pc := Finished))
    case Publishes(_) =>
      (g.(published := g.published + {w.pc.status}), w.(pc := AfterPublishing(w.pc.status, w.debug)))
    case Subscribes(_, ok) => (g, w.(pc := Checking, subscribed := ok))
    case Rereads(_) => (g, w.(pc := if g.record.row.status == Starting then Preparing else Raised))
    case Prepares(_, compiles, debug) =>
      (g, w.(pc := Reading(if compiles then Compiling else Running), debug := debug))
    case Loads(_) => (g, w.(pc := Writing(w.pc.target, g.record.row.status)))
    case Stores(_) =>
      (g.(record := Change(g.record, w.pc.seen, w.pc.target, StampFor(w.pc.target, g.clock), Worker)),
       w.(pc := if Wins(g.record, w.pc.seen, w.pc.target) then Announcing(w.pc.target)
                else AfterLosing(w.pc.target)))
    case Hears(_) => (g, w.(cancelSet := true))
    case Enters(_) =>
      (g, if w.cancelSet then w.(pc := Raised)
          else w.(pc := Waiting(w.pc.kind), thread := Begun(w.pc.kind)))
    case Makes(_) => (g.(containers := g.containers.Create(w.thread.kind)), w.(thread := Made(w.thread.kind)))
    case Ends(_, ok, left) =>
      (g.(containers := if left then g.containers else g.containers.Remove(w.thread.kind)),
       w.(thread := Ended(w.thread.kind, ok)))
    case Wakes(_, result) =>
      (g, w.(pc := if w.cancelSet then Killing(w.pc.kind, LoopTest)
                   else if !w.thread.ok then Reading(Failed)
                   else if w.pc.kind.Build? then Reading(Running)
                   else Reading(result)))
    case Kills(_) =>
      (g.(containers := Killed(w.pc.stage, g.containers)),
       w.(pc := AfterKill(w.pc.stage, w.pc.kind, w.thread.Ended?)))
    case DebugEnds(_, result) => (g, w.(pc := Reading(result)))
    case Gives(_) => (g, w.(pc := Reading(Cancelled)))
    case Errs(_) => (g, w.(pc := if w.pc == Announcing(Starting) then Finished else Reading(Failed)))
    case Dies(_) => (g, w.(pc := Dead, thread := NoThread))
  }

  // The kill loop: kill while the thread works, then once more after it ended.
  function AfterKill(stage: Stage, k: Kind, ended: bool): Pc {
    match stage
    case LoopTest => Killing(k, if ended then LastExec else LoopExec)
    case LoopExec => Killing(k, LoopBuild)
    case LoopBuild => Killing(k, LoopTest)
    case LastExec => Killing(k, LastBuild)
    case LastBuild => Raised
  }

  function Killed(stage: Stage, c: Containers): Containers {
    match stage
    case LoopTest => c
    case LoopExec => c.Remove(Exec)
    case LoopBuild => c.Remove(Build)
    case LastExec => c.Remove(Exec)
    case LastBuild => c.Remove(Build)
  }

  // Publishing on the cancel channel reaches every subscription in effect.
  function Signal(s: Proto): Proto {
    s.(shared := s.shared.(signalled := true),
       workers := map id | id in s.workers :: s.workers[id].(inbox := s.workers[id].inbox || s.workers[id].subscribed))
  }

  // The status a cancel request works with after (re)loading the row.
  function Look(r: Record, retries: nat): Request {
    if Terminal(r.row.status) then TooLate else Seen(r.row.status, retries)
  }

  function Requested(s: Proto, id: RequestId, r: Request): Proto {
    s.(requests := s.requests[id := r])
  }

  function Recorded(s: Proto, r: Record): Proto {
    s.(shared := s.shared.(record := r))
  }

  ghost function Next(s: Proto, a: Action): Proto
    requires Enabled(s, a)
  {
    var g := s.shared;
    if OfWorker(a) then
      var (g', w') := WorkerNext(g, a, a.worker, s.workers[a.worker]);
      s.(shared := g', workers := s.workers[a.worker := w'])
    else
      match a
      case Tick => s.(shared := g.(clock := g.clock + 1))
      case Delivers(effect, error) =>
        s.(shared := g.(queued := effect), submitter := if error then Compensating else Answered202)
      case Compensates =>
        s.(submitter := if g.record.row.status == Queued then FoundQueued else Answered202)
      case Fails =>
        Recorded(s, Change(g.record, Queued, Failed, Some(g.clock), Api))
        .(submitter := if Wins(g.record, Queued, Failed) then Answered503 else Answered202)
      case Redelivers => s.(shared := g.(queued := true))
      case DropsField => s.(shared := g.(queued := false))
      case WorkerArrives(id) => s.(workers := s.workers[id := FRESH])
      case CancelAsked(id) => Requested(s, id, Asked)
      case CancelReads(id) => Requested(s, id, Look(g.record, 0))
      case CancelWrites(id) =>
        var q := s.requests[id];
        if Wins(g.record, q.status, Cancelled) then
          Requested(Recorded(s, Change(g.record, q.status, Cancelled, Some(g.clock), Api)), id, Committed)
        else Requested(s, id, Look(g.record, q.retries + 1))
      case CancelGoesOn(id) =>
        if s.requests[id].Committed? then Requested(s.(shared := g.(queued := false)), id, Removed)
        else if s.requests[id].Removed? then Requested(Signal(s), id, Signalled)
        else Requested(s.(shared := g.(published := g.published + {Cancelled})), id, Reported)
      case SweepFinds => s.(sweep := Found(g.record.row.status))
      case SweepWrites =>
        Recorded(s, Change(g.record, s.sweep.status, Failed, Some(g.clock), Sweeper))
        .(sweep := if Wins(g.record, s.sweep.status, Failed) then Swept else Resting)
      case SweepSignals => Signal(s).(sweep := Resting)
      case SweepKills(kind) => s.(shared := g.(containers := g.containers.Remove(kind)))
  }

  ghost predicate Init(s: Proto) {
    && s.shared == Shared(Submitted(), 0, false, false, NONE, {})
    && s.submitter == Delivering && s.workers == map[] && s.requests == map[] && s.sweep == Resting
  }

  ghost predicate Runs(s: Proto, acts: seq<Action>, t: Proto)
    decreases |acts|
  {
    if acts == [] then s == t
    else Enabled(s, acts[0]) && Runs(Next(s, acts[0]), acts[1..], t)
  }

  // --- the invariant ---------------------------------------------------------

  // The re-read found STARTING and the handler has not ended.
  predicate PastReread(pc: Pc) {
    pc.Preparing? || pc.Entering? || pc.Waiting? || pc.Killing? || pc.Debugging?
    || (pc.Reading? && OnTheWay(pc.target))
    || (pc.Writing? && OnTheWay(pc.target))
    || (pc.Announcing? && OnTheWay(pc.status))
  }

  // Only these statuses are ever written by a worker's `_transition`.
  predicate TargetOk(pc: Pc) {
    && (pc.Reading? ==> !pc.target.Queued? && !pc.target.Starting?)
    && (pc.Writing? ==> !pc.target.Queued? && !pc.target.Starting?)
    && (pc.Announcing? ==> pc.status != Queued)
  }

  // Places from the claim to the sandbox where the run has no container.
  predicate Clean(pc: Pc) {
    !pc.Waiting? && !pc.Killing? &&
    (PastReread(pc) || pc.Raised? || pc.Checking? || pc.Subscribing? || pc == Announcing(Starting))
  }

  // A live claiming worker's thread accounts for every container of the run.
  predicate SandboxOk(pc: Pc, t: Thread, c: Containers) {
    && (match t
        case NoThread => true
        case Begun(_) => c == NONE
        case Made(k) => c.Only(k)
        case Ended(k, ok) => c.Only(k) && (ok && k.Build? ==> c == NONE))
    && (if pc.Waiting? || pc.Killing? then !t.NoThread? && t.kind == pc.kind
        else t.NoThread? || t.Ended?)
    && (pc.Killing? && (pc.stage.LastExec? || pc.stage.LastBuild?) ==> t.Ended?)
    && (pc.Killing? && pc.stage.LastBuild? ==> !c.exec)
    && (Clean(pc) ==> c == NONE)
  }

  ghost predicate WorkerOk(g: Shared, id: WorkerId, w: WorkerState) {
    && (w.claimed ==> g.record.row.workerId == Some(id))
    && (!w.claimed ==>
          (w.pc.Idle? || w.pc.Taken? || w.pc.Finished? || w.pc.Dead?) && w.thread.NoThread? && !w.subscribed)
    && TargetOk(w.pc)
    && (w.pc.Announcing? && Terminal(w.pc.status) ==> g.record.row.status == w.pc.status)
    // Cancellation.
    && (w.inbox || w.cancelSet ==> w.subscribed && g.signalled)
    && (w.pc == Announcing(Starting) || w.pc.Subscribing? ==> !w.subscribed)
    && (PastReread(w.pc) && w.subscribed && g.signalled ==> w.inbox || w.cancelSet)
    // The sandbox.
    && (w.claimed && !w.pc.Dead? ==> SandboxOk(w.pc, w.thread, g.containers))
    && (w.pc.Dead? ==> w.thread.NoThread?)
  }

  ghost predicate RequestOk(g: Shared, r: Request) {
    match r
    case Seen(status, retries) =>
      retries <= Rank(status) <= Rank(g.record.row.status) && !Terminal(status)
    case Asked => true
    case TooLate => Terminal(g.record.row.status)
    case Committed => g.record.row.status.Cancelled?
    case Removed => g.record.row.status.Cancelled?
    case Signalled => g.record.row.status.Cancelled? && g.signalled
    case Reported => g.record.row.status.Cancelled? && g.signalled
  }

  ghost predicate SharedOk(g: Shared) {
    && LegalHistory(g.record)
    && (g.record.row.workerId.None? ==> g.containers == NONE)
    && (g.signalled ==> Terminal(g.record.row.status))
    && (forall st :: st in g.published && Terminal(st) ==> g.record.row.status == st)
  }

  ghost predicate Inv(s: Proto) {
    && SharedOk(s.shared)
    && (forall id :: id in s.workers ==> WorkerOk(s.shared, id, s.workers[id]))
    && (forall id :: id in s.requests ==> RequestOk(s.shared, s.requests[id]))
    && (s.sweep.Found? ==> !Terminal(s.sweep.status))
    && (s.sweep.Swept? ==> s.shared.record.row.status == Failed)
    && (s.submitter.Answered503? ==> s.shared.record.row.status == Failed && !Started(s.shared.record.log))
  }

  // --- steps keep it ------------------------------------------------------------

  // What a commit of anybody leaves alone.
  ghost predicate Stable(r: Record, r': Record) {
    && LegalHistory(r')
    && (Terminal(r.row.status) ==> r' == r)
    && (r.row.workerId.Some? ==> r'.row.workerId == r.row.workerId)
    && Rank(r.row.status) <= Rank(r'.row.status)
  }

  lemma ChangeStable(r: Record, seen: Status, target: Status, now: nat, actor: Actor)
    requires LegalHistory(r) && target != Starting
    ensures Stable(r, Change(r, seen, target, StampFor(target, now), actor))
  {
    ChangeKeepsLegal(r, seen, target, StampFor(target, now), actor);
  }

  lemma ClaimStable(r: Record, worker: nat, now: nat)
    requires LegalHistory(r)
    ensures Stable(r, Claim(r, worker, now))
    ensures r.row.status == Queued ==> !Started(r.log) && r.row.workerId.None?
  {
    ClaimKeepsLegal(r, worker, now);
    if r.row.status == Queued {
      RanksRise(r.log, 0, |r.log| - 1);
    }
  }

  // A worker's own step keeps what concerns it.
  ghost predicate GoodStep(g: Shared, g': Shared, id: WorkerId, w: WorkerState, w': WorkerState) {
    && SharedOk(g') && WorkerOk(g', id, w') && Stable(g.record, g'.record)
    && g'.signalled == g.signalled
    && (g'.containers.Within(g.containers) || w.claimed)
    && (w.claimed ==> w'.claimed)
    && (w'.claimed && !w.claimed ==> g.record.row.workerId.None?)
  }

  lemma EarlyStepOk(g: Shared, a: Action, id: WorkerId, w: WorkerState)
    requires SharedOk(g) && WorkerOk(g, id, w) && WorkerEnabled(g, a, w)
    requires a.Pops? || a.Publishes? || a.Subscribes? || a.Rereads? || a.Prepares? || a.Loads?
    ensures var (g', w') := WorkerNext(g, a, id, w); GoodStep(g, g', id, w, w')
  {
  }

  lemma EventStepOk(g: Shared, a: Action, id: WorkerId, w: WorkerState)
    requires SharedOk(g) && WorkerOk(g, id, w) && WorkerEnabled(g, a, w)
    requires a.Hears? || a.Enters? || a.Wakes?
    ensures var (g', w') := WorkerNext(g, a, id, w); GoodStep(g, g', id, w, w')
  {
  }

  lemma LateStepOk(g: Shared, a: Action, id: WorkerId, w: WorkerState)
    requires SharedOk(g) && WorkerOk(g, id, w) && WorkerEnabled(g, a, w)
    requires a.DebugEnds? || a.Gives? || a.Errs? || a.Dies?
    ensures var (g', w') := WorkerNext(g, a, id, w); GoodStep(g, g', id, w, w')
  {
  }

  lemma ThreadStepOk(g: Shared, a: Action, id: WorkerId, w: WorkerState)
    requires SharedOk(g) && WorkerOk(g, id, w) && WorkerEnabled(g, a, w)
    requires a.Makes? || a.Ends?
    ensures var (g', w') := WorkerNext(g, a, id, w); GoodStep(g, g', id, w, w')
  {
    var (g', w') := WorkerNext(g, a, id, w);
    assert SandboxOk(w'.pc, w'.thread, g'.containers);
  }

  // One step of the kill loop: containers only go, and the last two kills find
  // the thread ended, so that nothing can come back.
  lemma KillSandboxOk(stage: Stage, k: Kind, t: Thread, c: Containers)
    requires SandboxOk(Killing(k, stage), t, c)
    ensures SandboxOk(AfterKill(stage, k, t.Ended?), t, Killed(stage, c))
    ensures Killed(stage, c).Within(c)
  {
  }

  lemma KillStepOk(g: Shared, id: WorkerId, w: WorkerState)
    requires SharedOk(g) && WorkerOk(g, id, w) && w.pc.Killing?
    ensures var (g', w') := WorkerNext(g, Kills(id), id, w); GoodStep(g, g', id, w, w')
  {
    KillSandboxOk(w.pc.stage, w.pc.kind, w.thread, g.containers);
    var pc' := AfterKill(w.pc.stage, w.pc.kind, w.thread.Ended?);
    assert pc'.Killing? || pc'.Raised?;
  }

  lemma CommitStepOk(g: Shared, a: Action, id: WorkerId, w: WorkerState)
    requires SharedOk(g) && WorkerOk(g, id, w) && WorkerEnabled(g, a, w)
    requires a.Claims? || a.Stores?
    ensures var (g', w') := WorkerNext(g, a, id, w); GoodStep(g, g', id, w, w')
  {
    if a.Claims? {
      ClaimStable(g.record, id, g.clock);
    } else {
      ChangeStable(g.record, w.pc.seen, w.pc.target, g.clock, Worker);
    }
  }

  lemma Lift(s: Proto, g': Shared, id: WorkerId, w': WorkerState)
    requires Inv(s) && id in s.workers && GoodStep(s.shared, g', id, s.workers[id], w')
    ensures Inv(s.(shared := g', workers := s.workers[id := w']))
  {
    forall j | j in s.workers && j != id
      ensures WorkerOk(g', j, s.workers[j])
    {
      assert WorkerOk(s.shared, j, s.workers[j]) && WorkerOk(s.shared, id, s.workers[id]);
    }
    assert s.submitter.Answered503? || s.sweep.Swept? ==> g'.record == s.shared.record;
  }

  lemma WorkerStepKeeps(s: Proto, a: Action)
    requires Inv(s) && Enabled(s, a) && OfWorker(a)
    ensures Inv(Next(s, a))
  {
    var id := a.worker;
    var w := s.workers[id];
    var (g', w') := WorkerNext(s.shared, a, id, w);
    assert GoodStep(s.shared, g', id, w, w') by {
      assert WorkerOk(s.shared, id, w);
      if a.Claims? || a.Stores? {
        CommitStepOk(s.shared, a, id, w);
      } else if a.Makes? || a.Ends? {
        ThreadStepOk(s.shared, a, id, w);
      } else if a.Kills? {
        KillStepOk(s.shared, id, w);
      } else if a.Pops? || a.Publishes? || a.Subscribes? || a.Rereads? || a.Prepares? || a.Loads? {
        EarlyStepOk(s.shared, a, id, w);
      } else if a.Hears? || a.Enters? || a.Wakes? {
        EventStepOk(s.shared, a, id, w);
      } else {
        LateStepOk(s.shared, a, id, w);
      }
    }
    Lift(s, g', id, w');
  }

  // A commit, or a container removed, by the API or the sweeper.
  lemma CommitKeeps(s: Proto, g': Shared)
    requires Inv(s) && SharedOk(g') && Stable(s.shared.record, g'.record)
    requires g'.signalled == s.shared.signalled && g'.containers.Within(s.shared.containers)
    ensures Inv(s.(shared := g'))
  {
    forall id | id in s.workers
      ensures WorkerOk(g', id, s.workers[id])
    {
      assert WorkerOk(s.shared, id, s.workers[id]);
    }
    assert s.submitter.Answered503? || s.sweep.Swept? ==> g'.record == s.shared.record;
  }

  lemma ChangeKeeps(s: Proto, seen: Status, target: Status, actor: Actor)
    requires Inv(s) && (target.Failed? || target.Cancelled?)
    ensures var r' := Change(s.shared.record, seen, target, Some(s.shared.clock), actor);
            && Inv(Recorded(s, r'))
            && (seen == Queued && Wins(s.shared.record, seen, target) ==> !Started(r'.log))
  {
    var r := s.shared.record;
    ChangeStable(r, seen, target, s.shared.clock, actor);
    ClaimStable(r, 0, 0);
    StartedGrows(r.log, Event(Some(seen), target, actor));
    CommitKeeps(s, s.shared.(record := Change(r, seen, target, Some(s.shared.clock), actor)));
  }

  lemma SignalKeeps(s: Proto)
    requires Inv(s) && Terminal(s.shared.record.row.status)
    ensures Inv(Signal(s))
  {
    var s' := Signal(s);
    forall id | id in s'.workers
      ensures WorkerOk(s'.shared, id, s'.workers[id])
    {
      assert WorkerOk(s.shared, id, s.workers[id]);
    }
  }

  lemma ApiStepKeeps(s: Proto, a: Action)
    requires Inv(s) && Enabled(s, a)
    requires a.Tick? || a.Delivers? || a.Compensates? || a.Fails? || a.Redelivers? || a.DropsField? || a.WorkerArrives?
    ensures Inv(Next(s, a))
  {
    if a.Fails? {
      ChangeKeeps(s, Queued, Failed, Api);
    } else if !a.WorkerArrives? {
      CommitKeeps(s, Next(s, a).shared);
    }
  }

  lemma RequestKeeps(s: Proto, id: RequestId, r: Request)
    requires Inv(s) && RequestOk(s.shared, r)
    ensures Inv(Requested(s, id, r))
  {
  }

  lemma CancelWriteKeeps(s: Proto, id: RequestId)
    requires Inv(s) && Enabled(s, CancelWrites(id))
    ensures Inv(Next(s, CancelWrites(id)))
  {
    var q, g := s.requests[id], s.shared;
    assert RequestOk(g, q);
    if Wins(g.record, q.status, Cancelled) {
      ChangeKeeps(s, q.status, Cancelled, Api);
      RequestKeeps(Recorded(s, Change(g.record, q.status, Cancelled, Some(g.clock), Api)), id, Committed);
    } else {
      RequestKeeps(s, id, Look(g.record, q.retries + 1));
    }
  }

  lemma CancelRestKeeps(s: Proto, id: RequestId)
    requires Inv(s) && Enabled(s, CancelGoesOn(id))
    ensures Inv(Next(s, CancelGoesOn(id)))
  {
    var g := s.shared;
    assert RequestOk(g, s.requests[id]);
    match s.requests[id] {
      case Committed =>
        CommitKeeps(s, g.(queued := false));
        RequestKeeps(s.(shared := g.(queued := false)), id, Removed);
      case Removed =>
        SignalKeeps(s);
        RequestKeeps(Signal(s), id, Signalled);
      case Signalled =>
        var g' := g.(published := g.published + {Cancelled});
        CommitKeeps(s, g');
        RequestKeeps(s.(shared := g'), id, Reported);
    }
  }

  lemma SweepWriteKeeps(s: Proto)
    requires Inv(s) && s.sweep.Found?
    ensures Inv(Next(s, SweepWrites))
  {
    ChangeKeeps(s, s.sweep.status, Failed, Sweeper);
  }

  /** Every step of every process keeps the invariant. */
  lemma StepKeeps(s: Proto, a: Action)
    requires Inv(s) && Enabled(s, a)
    ensures Inv(Next(s, a))
  {
    if OfWorker(a) {
      WorkerStepKeeps(s, a);
    } else if a.CancelAsked? || a.CancelReads? {
      RequestKeeps(s, a.request, if a.CancelAsked? then Asked else Look(s.shared.record, 0));
    } else if a.CancelWrites? {
      CancelWriteKeeps(s, a.request);
    } else if a.CancelGoesOn? {
      CancelRestKeeps(s, a.request);
    } else if a.SweepWrites? {
      SweepWriteKeeps(s);
    } else if a.SweepSignals? {
      SignalKeeps(s);
    } else if a.SweepKills? {
      CommitKeeps(s, s.shared.(containers := s.shared.containers.Remove(a.kind)));
    } else if !a.SweepFinds? {
      ApiStepKeeps(s, a);
    }
  }

  lemma InitOk(s: Proto)
    requires Init(s)
    ensures Inv(s)
  {
  }

  lemma {:induction false} RunKeeps(s: Proto, acts: seq<Action>, t: Proto)
    requires Inv(s) && Runs(s, acts, t)
    ensures Inv(t)
    decreases |acts|
  {
    if acts == [] {
    } else {
      StepKeeps(s, acts[0]);
      RunKeeps(Next(s, acts[0]), acts[1..], t);
    }
  }

  // --- what it means ---------------------------------------------------------------

  /** Whatever stale readings the processes act on, the audit log is a legal chain that
      ends in the row's status, and the time stamps say what happened. */
  lemma HistoryIsLegal(s0: Proto, acts: seq<Action>, s: Proto)
    requires Init(s0) && Runs(s0, acts, s)
    ensures LegalHistory(s.shared.record)
  {
    InitOk(s0);
    RunKeeps(s0, acts, s);
  }

  /** At most one worker ever passes the claim, however often the run is delivered. */
  lemma ExecutionIsExclusive(s0: Proto, acts: seq<Action>, s: Proto, v: WorkerId, w: WorkerId)
    requires Init(s0) && Runs(s0, acts, s)
    requires v in s.workers && w in s.workers && s.workers[v].claimed && s.workers[w].claimed
    ensures v == w && Started(s.shared.record.log)
  {
    InitOk(s0);
    RunKeeps(s0, acts, s);
    assert WorkerOk(s.shared, v, s.workers[v]) && WorkerOk(s.shared, w, s.workers[w]);
  }

  /** A run cancelled while it was queued is never claimed by anybody. */
  lemma CancelledWhileQueuedNeverStarts(s0: Proto, acts: seq<Action>, s: Proto, i: nat, w: WorkerId)
    requires Init(s0) && Runs(s0, acts, s) && i < |s.shared.record.log|
    requires s.shared.record.log[i].previous == Some(Queued) && s.shared.record.log[i].target == Cancelled
    ensures s.shared.record.row.status == Cancelled
    ensures w in s.workers ==> !s.workers[w].claimed
  {
    InitOk(s0);
    RunKeeps(s0, acts, s);
    EndedWhileQueuedNeverStarts(s.shared.record, i);
    assert w in s.workers ==> WorkerOk(s.shared, w, s.workers[w]);
  }

  lemma {:induction false} AnswerStays(s: Proto, acts: seq<Action>, t: Proto)
    requires Runs(s, acts, t) && s.submitter.Answered503?
    ensures t.submitter.Answered503?
    decreases |acts|
  {
    if acts == [] {
    } else {
      AnswerStays(Next(s, acts[0]), acts[1..], t);
    }
  }

  /** Once the submission was answered 503 the run is failed for ever and never claimed,
      even when its field survived in the queue. */
  lemma UndeliveredStaysFailed(s0: Proto, before: seq<Action>, s: Proto, after: seq<Action>, t: Proto, w: WorkerId)
    requires Init(s0) && Runs(s0, before, s) && Runs(s, after, t)
    requires s.submitter.Answered503?
    ensures t.shared.record.row.status == Failed && !Started(t.shared.record.log)
    ensures w in t.workers ==> !t.workers[w].claimed
  {
    InitOk(s0);
    RunKeeps(s0, before, s);
    RunKeeps(s, after, t);
    AnswerStays(s, after, t);
    assert w in t.workers ==> WorkerOk(t.shared, w, t.workers[w]);
  }

  /** A cancel request retries at most three times, whatever the others commit meanwhile. */
  lemma CancelRetriesAreBounded(s0: Proto, acts: seq<Action>, s: Proto, r: RequestId)
    requires Init(s0) && Runs(s0, acts, s) && r in s.requests && s.requests[r].Seen?
    ensures s.requests[r].retries <= Rank(s.requests[r].status) <= 3
  {
    InitOk(s0);
    RunKeeps(s0, acts, s);
    assert RequestOk(s.shared, s.requests[r]);
  }

  // A worker that has not got past its second reading.
  predicate NotPastReread(s: Proto, w: WorkerId) {
    w in s.workers ==> !PastReread(s.workers[w].pc)
  }

  // A worker's step on a final row.
  ghost predicate HeldBack(g: Shared, g': Shared, w: WorkerState, w': WorkerState) {
    g'.record == g.record && (!PastReread(w.pc) ==> !PastReread(w'.pc))
  }

  lemma EndedEarlyStep(g: Shared, a: Action, id: WorkerId, w: WorkerState)
    requires WorkerEnabled(g, a, w) && Terminal(g.record.row.status)
    requires a.Pops? || a.Claims? || a.Publishes? || a.Subscribes? || a.Rereads? || a.Prepares? || a.Loads? || a.Stores?
    ensures var (g', w') := WorkerNext(g, a, id, w); HeldBack(g, g', w, w')
  {
  }

  lemma EndedLateStep(g: Shared, a: Action, id: WorkerId, w: WorkerState)
    requires WorkerEnabled(g, a, w) && Terminal(g.record.row.status)
    requires a.Hears? || a.Enters? || a.Makes? || a.Ends? || a.Wakes? || a.Kills? || a.DebugEnds? || a.Gives?
             || a.Errs? || a.Dies?
    ensures var (g', w') := WorkerNext(g, a, id, w); HeldBack(g, g', w, w')
  {
  }

  lemma EndedWorkerStep(s: Proto, a: Action)
    requires Enabled(s, a) && OfWorker(a) && Terminal(s.shared.record.row.status)
    ensures HeldBack(s.shared, Next(s, a).shared, s.workers[a.worker], Next(s, a).workers[a.worker])
    ensures Next(s, a).workers == s.workers[a.worker := Next(s, a).workers[a.worker]]
  {
    if a.Pops? || a.Claims? || a.Publishes? || a.Subscribes? || a.Rereads? || a.Prepares? || a.Loads? || a.Stores? {
      EndedEarlyStep(s.shared, a, a.worker, s.workers[a.worker]);
    } else {
      EndedLateStep(s.shared, a, a.worker, s.workers[a.worker]);
    }
  }

  lemma EndedOtherStep(s: Proto, a: Action, w: WorkerId)
    requires Enabled(s, a) && !OfWorker(a) && Terminal(s.shared.record.row.status) && NotPastReread(s, w)
    ensures Next(s, a).shared.record == s.shared.record && NotPastReread(Next(s, a), w)
  {
  }

  lemma EndedStepHoldsBack(s: Proto, a: Action, w: WorkerId)
    requires Enabled(s, a) && Terminal(s.shared.record.row.status) && NotPastReread(s, w)
    ensures Next(s, a).shared.record == s.shared.record && NotPastReread(Next(s, a), w)
  {
    if OfWorker(a) {
      EndedWorkerStep(s, a);
    } else {
      EndedOtherStep(s, a, w);
    }
  }

  /** Once the row is final, in particular once a cancel is committed, a worker not yet past its
      second reading never gets past it: nothing of the run is started for it any more. */
  lemma {:induction false} RereadSeesCancel(s: Proto, acts: seq<Action>, t: Proto, w: WorkerId)
    requires Runs(s, acts, t)
    requires Terminal(s.shared.record.row.status) && NotPastReread(s, w)
    ensures t.shared.record == s.shared.record && NotPastReread(t, w)
    decreases |acts|
  {
    if acts == [] {
    } else {
      EndedStepHoldsBack(s, acts[0], w);
      RereadSeesCancel(Next(s, acts[0]), acts[1..], t, w);
    }
  }

  /** A worker that got past its second reading hears of a cancel exactly when its subscription
      succeeded and the cancel was signalled. */
  lemma CancelIsNotMissed(s0: Proto, acts: seq<Action>, s: Proto, w: WorkerId)
    requires Init(s0) && Runs(s0, acts, s) && w in s.workers && PastReread(s.workers[w].pc)
    ensures s.workers[w].inbox || s.workers[w].cancelSet <==> s.workers[w].subscribed && s.shared.signalled
  {
    InitOk(s0);
    RunKeeps(s0, acts, s);
    assert WorkerOk(s.shared, w, s.workers[w]);
  }

  // A request got through its signal.
  predicate CancelSent(s: Proto, r: RequestId) {
    r in s.requests && (s.requests[r].Signalled? || s.requests[r].Reported?)
  }

  /** Once a cancel request has gone through, a subscribed worker past its second reading
      has the message, and the row is final. */
  lemma SentCancelArrives(s0: Proto, acts: seq<Action>, s: Proto, r: RequestId, w: WorkerId)
    requires Init(s0) && Runs(s0, acts, s) && CancelSent(s, r)
    requires w in s.workers && PastReread(s.workers[w].pc) && s.workers[w].subscribed
    ensures s.shared.record.row.status == Cancelled
    ensures s.workers[w].inbox || s.workers[w].cancelSet
  {
    InitOk(s0);
    RunKeeps(s0, acts, s);
    assert RequestOk(s.shared, s.requests[r]);
    CancelIsNotMissed(s0, acts, s, w);
  }

  // The request whose write cancelled the run.
  predicate Won(r: Request) {
    OnItsWay(r) || r.Reported?
  }

  ghost predicate OneWinner(s: Proto) {
    forall i, j :: i in s.requests && j in s.requests && Won(s.requests[i]) && Won(s.requests[j]) ==> i == j
  }

  // What only requests touch, and what only requests and the sweeper do.
  lemma RequestsUntouched(s: Proto, a: Action)
    requires Enabled(s, a) && !a.CancelAsked? && !a.CancelReads? && !a.CancelWrites? && !a.CancelGoesOn?
    ensures Next(s, a).requests == s.requests
    ensures OfWorker(a) ==> Next(s, a).sweep == s.sweep && Next(s, a).shared.signalled == s.shared.signalled
  {
  }

  lemma OneWinnerWrites(s: Proto, id: RequestId)
    requires Inv(s) && Enabled(s, CancelWrites(id)) && OneWinner(s)
    ensures OneWinner(Next(s, CancelWrites(id)))
  {
    forall i | i in s.requests && Won(s.requests[i])
      ensures Terminal(s.shared.record.row.status)
    {
      assert RequestOk(s.shared, s.requests[i]);
    }
  }

  lemma OneWinnerGoesOn(s: Proto, id: RequestId)
    requires Enabled(s, CancelGoesOn(id)) && OneWinner(s)
    ensures OneWinner(Next(s, CancelGoesOn(id)))
  {
  }

  lemma OneWinnerLooks(s: Proto, a: Action)
    requires Enabled(s, a) && (a.CancelAsked? || a.CancelReads?) && OneWinner(s)
    ensures OneWinner(Next(s, a))
  {
  }

  lemma WinnerStays(s: Proto, a: Action)
    requires Inv(s) && Enabled(s, a) && OneWinner(s)
    ensures OneWinner(Next(s, a))
  {
    if a.CancelWrites? {
      OneWinnerWrites(s, a.request);
    } else if a.CancelGoesOn? {
      OneWinnerGoesOn(s, a.request);
    } else if a.CancelAsked? || a.CancelReads? {
      OneWinnerLooks(s, a);
    } else {
      RequestsUntouched(s, a);
    }
  }

  lemma {:induction false} RunHasOneWinner(s: Proto, acts: seq<Action>, t: Proto)
    requires Inv(s) && OneWinner(s) && Runs(s, acts, t)
    ensures OneWinner(t)
    decreases |acts|
  {
    if acts == [] {
    } else {
      StepKeeps(s, acts[0]);
      WinnerStays(s, acts[0]);
      RunHasOneWinner(Next(s, acts[0]), acts[1..], t);
    }
  }

  // A committed cancel that was not signalled yet.
  predicate Unsent(s: Proto, r: RequestId) {
    r in s.requests && (s.requests[r].Committed? || s.requests[r].Removed?) && !s.shared.signalled
  }

  lemma UnsentStep(s: Proto, a: Action, r: RequestId)
    requires Inv(s) && OneWinner(s) && Enabled(s, a) && Unsent(s, r) && a != CancelGoesOn(r)
    ensures Unsent(Next(s, a), r)
  {
    assert RequestOk(s.shared, s.requests[r]);
    if OfWorker(a) {
      RequestsUntouched(s, a);
    }
  }

  lemma {:induction false} UnsentRun(s: Proto, acts: seq<Action>, t: Proto, r: RequestId)
    requires Inv(s) && OneWinner(s) && Runs(s, acts, t) && Unsent(s, r) && CancelGoesOn(r) !in acts
    ensures Unsent(t, r)
    decreases |acts|
  {
    if acts == [] {
    } else {
      StepKeeps(s, acts[0]);
      WinnerStays(s, acts[0]);
      UnsentStep(s, acts[0], r);
      UnsentRun(Next(s, acts[0]), acts[1..], t, r);
    }
  }

  /** Only the request that committed a cancel ever signals it: if that request stops short, at a
      Redis error or with its process, no worker past its second reading hears of the cancel. */
  lemma NobodyElseSignals(s0: Proto, before: seq<Action>, s: Proto, after: seq<Action>, t: Proto, r: RequestId,
                          w: WorkerId)
    requires Init(s0) && Runs(s0, before, s) && Runs(s, after, t)
    requires Unsent(s, r) && CancelGoesOn(r) !in after
    ensures t.shared.record.row.status == Cancelled && !t.shared.signalled
    ensures w in t.workers ==> !t.workers[w].inbox && !t.workers[w].cancelSet
  {
    InitOk(s0);
    RunKeeps(s0, before, s);
    RunHasOneWinner(s0, before, s);
    UnsentRun(s, after, t, r);
    RunKeeps(s, after, t);
    assert RequestOk(t.shared, t.requests[r]);
    assert w in t.workers ==> WorkerOk(t.shared, w, t.workers[w]);
  }

  /** When `ExecutionCancelled` is caught, the sandbox thread never started or has ended,
      and no container of the run is left, however its creation interleaved with the kills. */
  lemma CancelLeavesNothing(s0: Proto, acts: seq<Action>, s: Proto, w: WorkerId)
    requires Init(s0) && Runs(s0, acts, s) && w in s.workers && s.workers[w].pc.Raised?
    ensures s.shared.containers == NONE
    ensures s.workers[w].thread.NoThread? || s.workers[w].thread.Ended?
  {
    InitOk(s0);
    RunKeeps(s0, acts, s);
    assert WorkerOk(s.shared, w, s.workers[w]);
  }

  /** Only the winner of the compare-and-set publishes a final status, so every final
      status ever published is the row's. */
  lemma PublishedFinalIsTheRows(s0: Proto, acts: seq<Action>, s: Proto, st: Status)
    requires Init(s0) && Runs(s0, acts, s) && st in s.shared.published && Terminal(st)
    ensures s.shared.record.row.status == st
  {
    InitOk(s0);
    RunKeeps(s0, acts, s);
  }
}
