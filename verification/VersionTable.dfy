/**
 * Numbering, saves and promotions racing with a prune that reads the rows,
 * decides, and deletes later.
 */
module VersionTable {
  import opened ByteStrings
  import opened VersionHistory
  import opened Wrappers

  // `top` is the highest number ever given; `doomed` are the ids that prunes, of which any
  // number may be under way, have decided on and not deleted yet.
  datatype Table = Table(rows: set<Version>, top: nat, nextId: nat, doomed: set<nat>)

  datatype Action =
    | Checkpoint(payload: Bytes, savedBy: Option<nat>, created: int)
    | PruneReads(now: int)
    | PruneDeletes(ids: set<nat>)

  ghost function DoomedIds(h: set<Version>, now: int): set<nat> {
    set v | v in h && Prunable(h, v, now) :: v.id
  }

  ghost function Without(h: set<Version>, ids: set<nat>): set<Version> {
    set v | v in h && v.id !in ids
  }

  ghost function HighestOf(h: set<Version>): nat {
    if h == {} then 0 else LatestOf(h).number
  }

  ghost predicate Enabled(t: Table, a: Action) {
    match a
    case Checkpoint(_, _, _) => true
    case PruneReads(_) => true
    case PruneDeletes(ids) => ids <= t.doomed
  }

  ghost function Next(t: Table, a: Action): Table
    requires Enabled(t, a)
  {
    match a
    case Checkpoint(payload, savedBy, created) =>
      var h := Checkpointed(t.rows, payload, savedBy, t.nextId, created);
      Table(h, if HighestOf(h) > t.top then HighestOf(h) else t.top, t.nextId + 1, t.doomed)
    case PruneReads(now) => t.(doomed := t.doomed + DoomedIds(t.rows, now))
    case PruneDeletes(ids) => t.(rows := Without(t.rows, ids), doomed := t.doomed - ids)
  }

  ghost predicate Runs(t: Table, acts: seq<Action>, u: Table)
    decreases |acts|
  {
    if acts == [] then t == u
    else Enabled(t, acts[0]) && Runs(Next(t, acts[0]), acts[1..], u)
  }

  const EMPTY := Table({}, 0, 0, {})

  ghost predicate Inv(t: Table) {
    && Distinct(t.rows)
    && (forall v :: v in t.rows ==> 0 < v.number <= t.top && v.id < t.nextId)
    && (t.top > 0 ==> exists v :: v in t.rows && v.number == t.top)
    // What is doomed was an autosave, and not the latest, and neither changes.
    && (forall id :: id in t.doomed ==> id < t.nextId)
    && (forall v :: v in t.rows && v.id in t.doomed ==> v.savedBy.None? && v.number < t.top)
  }

  lemma LatestIsTop(t: Table)
    requires Inv(t)
    ensures HighestOf(t.rows) == t.top
  {
    if t.rows != {} {
      assert LatestOf(t.rows).number <= t.top;
    }
  }

  lemma CheckpointKeeps(t: Table, payload: Bytes, savedBy: Option<nat>, created: int)
    requires Inv(t)
    ensures var t' := Next(t, Checkpoint(payload, savedBy, created));
            Inv(t') && t'.top == HighestOf(t'.rows) && t.top <= t'.top <= t.top + 1
  {
    LatestIsTop(t);
    var t' := Next(t, Checkpoint(payload, savedBy, created));
    if t.rows != {} {
      var l := LatestOf(t.rows);
      if t'.rows == t.rows - {l} + {l.(savedBy := savedBy)} {
        assert l.(savedBy := savedBy) in t'.rows;
      }
    }
    assert t'.rows != {} ==> LatestOf(t'.rows) in t'.rows;
  }

  lemma StepKeeps(t: Table, a: Action)
    requires Inv(t) && Enabled(t, a)
    ensures Inv(Next(t, a)) && t.top <= Next(t, a).top
  {
    match a {
      case Checkpoint(p, by', c) => CheckpointKeeps(t, p, by', c);
      case PruneReads(now) =>
        LatestIsTop(t);
        forall v | v in t.rows && v.id in DoomedIds(t.rows, now)
          ensures v.savedBy.None? && v.number < t.top
        {
          var u :| u in t.rows && Prunable(t.rows, u, now) && u.id == v.id;
          var w :| w in t.rows && w.number > v.number;
        }
      case PruneDeletes(ids) =>
        if t.top > 0 {
          var v :| v in t.rows && v.number == t.top;
          assert v.id !in t.doomed && v in Without(t.rows, ids);
        }
    }
  }

  lemma {:induction false} RunKeeps(t: Table, acts: seq<Action>, u: Table)
    requires Inv(t) && Runs(t, acts, u)
    ensures Inv(u) && t.top <= u.top
    decreases |acts|
  {
    if acts == [] {
    } else {
      StepKeeps(t, acts[0]);
      RunKeeps(Next(t, acts[0]), acts[1..], u);
    }
  }

  /** A checkpoint that writes a row numbers it above every number ever given to the file. */
  lemma NumbersAreNeverReused(acts: seq<Action>, t: Table, payload: Bytes, savedBy: Option<nat>, created: int,
                              v: Version)
    requires Runs(EMPTY, acts, t)
    requires v in Next(t, Checkpoint(payload, savedBy, created)).rows && v.id == t.nextId
    ensures v.number == t.top + 1
    ensures forall u :: u in t.rows ==> u.number < v.number
  {
    RunKeeps(EMPTY, acts, t);
    LatestIsTop(t);
  }

  // What remains of a row: its number, content and time never change.
  ghost predicate SameVersion(v: Version, w: Version) {
    w == v || (v.savedBy.None? && w == v.(savedBy := w.savedBy))
  }

  lemma SavesStay(t: Table, a: Action, v: Version)
    requires Inv(t) && Enabled(t, a) && v in t.rows && v.savedBy.Some?
    ensures v in Next(t, a).rows
  {
  }

  /** A version marked as a save is there for ever, whatever prunes, saves and promotions
      fall between a prune's reading and its deletes. */
  lemma {:induction false} SavesAreNeverDeleted(t: Table, acts: seq<Action>, u: Table, v: Version)
    requires Inv(t) && Runs(t, acts, u) && v in t.rows && v.savedBy.Some?
    ensures v in u.rows
    decreases |acts|
  {
    if acts == [] {
    } else {
      StepKeeps(t, acts[0]);
      SavesStay(t, acts[0], v);
      SavesAreNeverDeleted(Next(t, acts[0]), acts[1..], u, v);
    }
  }

  /** The latest version is never deleted either: it is there, with the highest number. */
  lemma LatestIsNeverDeleted(acts: seq<Action>, t: Table)
    requires Runs(EMPTY, acts, t) && t.top > 0
    ensures t.rows != {} && LatestOf(t.rows).number == t.top
  {
    RunKeeps(EMPTY, acts, t);
    LatestIsTop(t);
  }

  lemma StepKeepsVersions(t: Table, a: Action, w: Version)
    requires Inv(t) && Enabled(t, a) && w in Next(t, a).rows
    ensures w.id < t.nextId ==> exists v :: v in t.rows && SameVersion(v, w)
    ensures w.id >= t.nextId ==> w.number > t.top
  {
    LatestIsTop(t);
    if w in t.rows {
      assert SameVersion(w, w);
    } else if w.id < t.nextId {
      assert SameVersion(LatestOf(t.rows), w);
    }
  }

  /** Over any run, a row still there has the number, content and time it always had, and
      every row written later has a higher number than all before. */
  lemma {:induction false} HistoryIsImmutable(t: Table, acts: seq<Action>, u: Table, w: Version)
    requires Inv(t) && Runs(t, acts, u) && w in u.rows
    ensures w.id < t.nextId ==> exists v :: v in t.rows && v.id == w.id && v.number == w.number
                                            && v.snapshot == w.snapshot && v.created == w.created
    ensures w.id >= t.nextId ==> w.number > t.top
    decreases |acts|
  {
    if acts == [] {
    } else {
      var m := Next(t, acts[0]);
      StepKeeps(t, acts[0]);
      HistoryIsImmutable(m, acts[1..], u, w);
      if w.id < m.nextId {
        var x :| x in m.rows && x.id == w.id && x.number == w.number
                 && x.snapshot == w.snapshot && x.created == w.created;
        StepKeepsVersions(t, acts[0], x);
      }
    }
  }

  /** The table itself, as the checkpointer and the pruner change it. */
  class Versions {
    var rows: set<Version>
    var nextId: nat

    constructor ()
      ensures rows == {} && nextId == 0
    {
      rows, nextId := {}, 0;
    }

    /** `ORDER BY version_number DESC LIMIT 1` */
    method FindLatest() returns (latest: Option<Version>)
      ensures latest.None? <==> rows == {}
      ensures latest.Some? ==> Latest(rows, latest.value)
    {
      latest := None;
      var left := rows;
      while left != {}
        invariant left <= rows
        invariant latest.None? <==> left == rows
        invariant latest.Some? ==> Latest(rows - left, latest.value)
        decreases left
      {
        var v :| v in left;
        left := left - {v};
        if latest.None? || v.number > latest.value.number {
          latest := Some(v);
        }
      }
      assert rows - left == rows;
    }

    /** `_checkpoint_room`'s versions: the number of the latest version and whether it is new. */
    method CheckpointRoom(payload: Bytes, savedBy: Option<nat>, now: int)
        returns (version: Option<nat>, created: bool)
      requires Distinct(rows)
      modifies this
      ensures rows == Checkpointed(old(rows), payload, savedBy, old(nextId), now)
      ensures nextId == old(nextId) + 1
      ensures version.None? <==> rows == {}
      ensures version.Some? ==> version.value == LatestOf(rows).number
      ensures created <==> payload != [] && (old(rows) == {} || LatestOf(old(rows)).snapshot != payload)
    {
      var latest := FindLatest();
      version := if latest.Some? then Some(latest.value.number) else None;
      created := false;
      assert latest.Some? ==> latest.value == LatestOf(rows);
      if payload != [] && (latest.None? || latest.value.snapshot != payload) {
        var number := if latest.Some? then latest.value.number + 1 else 1;
        var row := Version(nextId, number, payload, now, savedBy);
        version, created := Some(number), true;
        assert forall u :: u in rows ==> u.number < number;
        rows := rows + {row};
        assert Latest(rows, row);
      } else if savedBy.Some? && latest.Some? && latest.value.savedBy.None? {
        rows := rows - {latest.value} + {latest.value.(savedBy := savedBy)};
        assert Latest(rows, latest.value.(savedBy := savedBy));
      }
      nextId := nextId + 1;
    }

    /** The deletes of a prune, at most `DELETE_CHUNK` ids each. */
    method DeleteAll(ids: seq<nat>)
      modifies this`rows
      ensures rows == Without(old(rows), Members(ids))
    {
      var i := 0;
      while i < |ids|
        invariant 0 <= i
        invariant rows == Without(old(rows), Members(Start(ids, i)))
        decreases |ids| - i
      {
        var end := if i + DELETE_CHUNK < |ids| then i + DELETE_CHUNK else |ids|;
        var chunk := ids[i..end];
        assert Start(ids, end) == Start(ids, i) + chunk;
        rows := set v | v in rows && v.id !in chunk;
        i := i + DELETE_CHUNK;
        assert Start(ids, i) == Start(ids, end);
      }
    }
  }

  function Members(ids: seq<nat>): set<nat> {
    set id | id in ids
  }

  function Start(ids: seq<nat>, i: nat): seq<nat> {
    if i < |ids| then ids[..i] else ids
  }
}
