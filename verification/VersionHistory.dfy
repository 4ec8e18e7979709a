/**
 * One file's rows in `document_versions`: numbering, saves, and the thinning of
 * old autosaves.  Times are microseconds since the epoch, in UTC.
 */
module VersionHistory {
  import opened ByteStrings
  import opened Sorting
  import opened Wrappers

  datatype Version = Version(id: nat, number: nat, snapshot: Bytes, created: int, savedBy: Option<nat>)

  const SECOND := 1_000_000
  const KEEP_ALL_FOR := 3_600 * SECOND
  const KEEP_TEN_MINUTELY_FOR := 86_400 * SECOND
  const PRUNE_MIN_VERSIONS := 30
  const DELETE_CHUNK := 500

  datatype Slot = TenMinutes(n: int) | Day(n: int)

  // Python's int(): towards zero.
  function Timestamp(v: Version): int {
    if v.created >= 0 then v.created / SECOND else -((-v.created) / SECOND)
  }

  function DayOf(v: Version): int {
    Timestamp(v) / 86400
  }

  predicate Aged(v: Version, now: int) {
    now - v.created >= KEEP_ALL_FOR
  }

  function SlotOf(v: Version, now: int): Slot {
    if now - v.created < KEEP_TEN_MINUTELY_FOR then TenMinutes(Timestamp(v) / 600) else Day(DayOf(v))
  }

  /** Ten-minute slots nest in days. */
  lemma SlotsNest(u: Version, v: Version, now: int)
    requires SlotOf(u, now) == SlotOf(v, now)
    ensures DayOf(u) == DayOf(v)
  {
    assert Timestamp(u) / 86400 == Timestamp(u) / 600 / 144;
    assert Timestamp(v) / 86400 == Timestamp(v) / 600 / 144;
  }

  // --- what is thinned out ------------------------------------------------------

  ghost predicate Distinct(h: set<Version>) {
    forall u, v :: u in h && v in h && (u.number == v.number || u.id == v.id) ==> u == v
  }

  ghost predicate Latest(h: set<Version>, v: Version) {
    v in h && forall u :: u in h ==> u.number <= v.number
  }

  // A newer version stands for the slot of `v`.
  ghost predicate Covered(h: set<Version>, v: Version, now: int) {
    exists u :: u in h && u.number > v.number && Aged(u, now) && SlotOf(u, now) == SlotOf(v, now)
  }

  ghost predicate Prunable(h: set<Version>, v: Version, now: int) {
    v in h && Aged(v, now) && v.savedBy.None? && !Latest(h, v) && Covered(h, v, now)
  }

  ghost function Kept(h: set<Version>, now: int): set<Version> {
    set v | v in h && !Prunable(h, v, now)
  }

  function Ids(rows: seq<Version>): set<nat> {
    set v | v in rows :: v.id
  }

  ghost function Rows(rows: seq<Version>): set<Version> {
    set v | v in rows
  }

  // Row `j` of the rows sorted by descending number goes.
  ghost predicate GoesAt(rows: seq<Version>, j: int, now: int)
    requires 0 <= j < |rows|
  {
    0 < j && Aged(rows[j], now) && rows[j].savedBy.None? &&
    exists k :: 0 <= k < j && Aged(rows[k], now) && SlotOf(rows[k], now) == SlotOf(rows[j], now)
  }

  ghost predicate SeenUpTo(rows: seq<Version>, i: int, now: int, seen: set<Slot>)
    requires 0 <= i <= |rows|
  {
    forall s :: s in seen <==> exists k :: 0 <= k < i && Aged(rows[k], now) && SlotOf(rows[k], now) == s
  }

  ghost function GoneIds(rows: seq<Version>, i: nat, now: int): seq<nat>
    requires i <= |rows|
  {
    if i == 0 then [] else GoneIds(rows, i - 1, now) + (if GoesAt(rows, i - 1, now) then [rows[i - 1].id] else [])
  }

  lemma {:induction false} GoneIdsAre(rows: seq<Version>, i: nat, now: int, id: nat)
    requires i <= |rows|
    ensures id in GoneIds(rows, i, now) <==> exists j :: 0 <= j < i && rows[j].id == id && GoesAt(rows, j, now)
  {
    if i == 0 {
    } else {
      GoneIdsAre(rows, i - 1, now, id);
    }
  }

  function ByNumber(rows: seq<Version>): seq<Version> {
    SortDesc(rows, (v: Version) => v.number)
  }

  /** `versions_to_prune`: the ids of exactly the prunable rows. */
  method VersionsToPrune(rows: seq<Version>, now: int) returns (prune: seq<nat>)
    requires Distinct(Rows(rows)) && |Rows(rows)| == |rows|
    ensures forall v :: v in rows ==> (v.id in prune <==> Prunable(Rows(rows), v, now))
    ensures forall id :: id in prune ==> id in Ids(rows)
  {
    var sorted := ByNumber(rows);
    prune := PruneSorted(sorted, now);
    SortedRows(rows);
    PrunedIds(rows, sorted, now);
  }

  // Its loop over the rows, newest first.
  method PruneSorted(sorted: seq<Version>, now: int) returns (prune: seq<nat>)
    ensures prune == GoneIds(sorted, |sorted|, now)
  {
    var seen: set<Slot> := {};
    prune := [];
    for i := 0 to |sorted|
      invariant SeenUpTo(sorted, i, now, seen)
      invariant prune == GoneIds(sorted, i, now)
    {
      var row := sorted[i];
      SeenStep(sorted, i, now, seen);
      if now - row.created >= KEEP_ALL_FOR {
        var slot := SlotOf(row, now);
        if i == 0 || row.savedBy.Some? {
          seen := seen + {slot};
        } else if slot in seen {
          prune := prune + [row.id];
        } else {
          seen := seen + {slot};
        }
      }
    }
  }

  lemma SeenStep(sorted: seq<Version>, i: nat, now: int, seen: set<Slot>)
    requires i < |sorted| && SeenUpTo(sorted, i, now, seen)
    ensures SeenUpTo(sorted, i + 1, now, if Aged(sorted[i], now) then seen + {SlotOf(sorted[i], now)} else seen)
    ensures SlotOf(sorted[i], now) in seen ==> seen + {SlotOf(sorted[i], now)} == seen
    ensures GoesAt(sorted, i, now) <==>
            0 < i && Aged(sorted[i], now) && sorted[i].savedBy.None? && SlotOf(sorted[i], now) in seen
  {
  }

  lemma PrunedIds(rows: seq<Version>, sorted: seq<Version>, now: int)
    requires Distinct(Rows(rows)) && SortedBy(rows, sorted)
    ensures var prune := GoneIds(sorted, |sorted|, now);
            && (forall v :: v in rows ==> (v.id in prune <==> Prunable(Rows(rows), v, now)))
            && (forall id :: id in prune ==> id in Ids(rows))
  {
    var prune := GoneIds(sorted, |sorted|, now);
    forall v | v in rows
      ensures v.id in prune <==> Prunable(Rows(rows), v, now)
    {
      GoneIdsAre(sorted, |sorted|, now, v.id);
      if v.id in prune {
        var j :| 0 <= j < |sorted| && sorted[j].id == v.id && GoesAt(sorted, j, now);
        assert sorted[j] in rows && sorted[j] == v;
        GoneIsPrunable(rows, sorted, j, now);
      }
      if Prunable(Rows(rows), v, now) {
        var j := PrunableGoes(rows, sorted, v, now);
      }
    }
    forall id | id in prune
      ensures id in Ids(rows)
    {
      GoneIdsAre(sorted, |sorted|, now, id);
      var j :| 0 <= j < |sorted| && sorted[j].id == id && GoesAt(sorted, j, now);
      assert sorted[j] in rows;
    }
  }

  // What sorting does to rows with different numbers.
  ghost predicate SortedBy(rows: seq<Version>, sorted: seq<Version>) {
    && (forall v :: v in rows <==> v in sorted)
    && (forall i, j :: 0 <= i < j < |sorted| ==> sorted[i].number > sorted[j].number)
  }

  lemma SortedRows(rows: seq<Version>)
    requires Distinct(Rows(rows)) && |Rows(rows)| == |rows|
    ensures SortedBy(rows, ByNumber(rows))
  {
    var key := (v: Version) => v.number;
    var sorted := ByNumber(rows);
    SortDescSorts(rows, key);
    forall v
      ensures v in rows <==> v in sorted
    {
      assert v in rows <==> v in multiset(rows);
      assert v in sorted <==> v in multiset(sorted);
    }
    assert Rows(sorted) == Rows(rows);
    forall i, j | 0 <= i < j < |sorted|
      ensures sorted[i].number > sorted[j].number
    {
      assert key(sorted[i]) >= key(sorted[j]);
      DifferentNumbers(sorted, i, j);
    }
  }

  lemma DifferentNumbers(rows: seq<Version>, i: int, j: int)
    requires Distinct(Rows(rows)) && |Rows(rows)| == |rows| && 0 <= i < j < |rows|
    ensures rows[i].number != rows[j].number
  {
    if rows[i].number == rows[j].number {
      assert rows[i] in Rows(rows) && rows[j] in Rows(rows);
      RepeatShrinks(rows, i, j);
    }
  }

  lemma RepeatShrinks(rows: seq<Version>, i: int, j: int)
    requires 0 <= i < j < |rows| && rows[i] == rows[j]
    ensures |Rows(rows)| < |rows|
  {
    var rest := rows[..j] + rows[j + 1..];
    assert rest[i] == rows[j];
    assert Rows(rest) == Rows(rows) by {
      forall v | v in rows ensures v in rest {
        var k :| 0 <= k < |rows| && rows[k] == v;
        if k < j { assert rest[k] == v; } else if k > j { assert rest[k - 1] == v; } else { assert rest[i] == v; }
      }
    }
    FewRows(rest);
  }

  lemma {:induction false} FewRows(rows: seq<Version>)
    ensures |Rows(rows)| <= |rows|
  {
    if rows == [] {
    } else {
      FewRows(rows[1..]);
      assert Rows(rows) == Rows(rows[1..]) + {rows[0]};
    }
  }

  lemma GoneIsPrunable(rows: seq<Version>, sorted: seq<Version>, j: nat, now: int)
    requires SortedBy(rows, sorted) && j < |sorted| && GoesAt(sorted, j, now)
    ensures Prunable(Rows(rows), sorted[j], now)
  {
    var k :| 0 <= k < j && Aged(sorted[k], now) && SlotOf(sorted[k], now) == SlotOf(sorted[j], now);
    assert sorted[k] in sorted && sorted[j] in sorted;
    assert sorted[k] in Rows(rows) && sorted[k].number > sorted[j].number;
  }

  lemma PrunableGoes(rows: seq<Version>, sorted: seq<Version>, v: Version, now: int) returns (j: nat)
    requires SortedBy(rows, sorted) && Prunable(Rows(rows), v, now)
    ensures j < |sorted| && sorted[j] == v && GoesAt(sorted, j, now)
  {
    assert v in sorted;
    j :| 0 <= j < |sorted| && sorted[j] == v;
    var u :| u in Rows(rows) && u.number > v.number && Aged(u, now) && SlotOf(u, now) == SlotOf(v, now);
    assert u in sorted;
    var k :| 0 <= k < |sorted| && sorted[k] == u;
    assert k < j;
  }

  // --- pruning at leisure ---------------------------------------------------------

  /** Pruning again at the same instant removes nothing more. */
  lemma PruningIsIdempotent(h: set<Version>, now: int)
    requires Distinct(h)
    ensures Kept(Kept(h, now), now) == Kept(h, now)
  {
    var k := Kept(h, now);
    forall v | v in k
      ensures !Prunable(k, v, now)
    {
      if Prunable(k, v, now) {
        var u :| u in k && u.number > v.number && Aged(u, now) && SlotOf(u, now) == SlotOf(v, now);
        assert u in h;
        assert Prunable(h, v, now);
      }
    }
  }

  /** At a day's age a prune leaves the latest version, the saves, and the newest of each day. */
  lemma DailyHistory(h: set<Version>, now: int, v: Version)
    requires forall u :: u in h ==> now - u.created >= KEEP_TEN_MINUTELY_FOR
    ensures v in Kept(h, now) <==>
            v in h && (Latest(h, v) || v.savedBy.Some? ||
                       forall u :: u in h && DayOf(u) == DayOf(v) ==> u.number <= v.number)
  {
    if v in h {
      assert Covered(h, v, now) <==> exists u :: u in h && u.number > v.number && DayOf(u) == DayOf(v);
    }
  }

  // `thin` is `full` after some pruning.
  ghost predicate Thinned(full: set<Version>, thin: set<Version>) {
    && Distinct(full) && thin <= full
    && (forall v :: v in full && v !in thin ==> v.savedBy.None? && NewerSameDay(full, v))
  }

  ghost predicate NewerSameDay(h: set<Version>, v: Version) {
    exists u :: u in h && u.number > v.number && DayOf(u) == DayOf(v)
  }

  lemma PruneThins(full: set<Version>, thin: set<Version>, now: int)
    requires Thinned(full, thin)
    ensures Thinned(full, Kept(thin, now))
  {
    forall v | v in thin && v !in Kept(thin, now)
      ensures v.savedBy.None? && NewerSameDay(full, v)
    {
      var u :| u in thin && u.number > v.number && Aged(u, now) && SlotOf(u, now) == SlotOf(v, now);
      SlotsNest(u, v, now);
    }
  }

  ghost function Newer(h: set<Version>, n: nat): set<Version> {
    set u | u in h && u.number > n
  }

  // The newest version of a day is never pruned.
  lemma {:induction false} KeptOfDay(full: set<Version>, thin: set<Version>, v: Version) returns (w: Version)
    requires Thinned(full, thin) && v in full
    ensures w in thin && w.number >= v.number && DayOf(w) == DayOf(v)
    decreases Newer(full, v.number)
  {
    if v in thin {
      w := v;
    } else {
      var u :| u in full && u.number > v.number && DayOf(u) == DayOf(v);
      assert u in Newer(full, v.number) && u !in Newer(full, u.number);
      assert Newer(full, u.number) <= Newer(full, v.number);
      w := KeptOfDay(full, thin, u);
    }
  }

  lemma KeptByBoth(full: set<Version>, thin: set<Version>, now: int, v: Version)
    requires Thinned(full, thin) && v in Kept(full, now)
    requires forall v :: v in full ==> now - v.created >= KEEP_TEN_MINUTELY_FOR
    ensures v in Kept(thin, now)
  {
    DailyHistory(full, now, v);
    DailyHistory(thin, now, v);
    assert v !in thin ==> v.savedBy.None? && NewerSameDay(full, v);
    assert v in thin;
  }

  // A row that went, and one that made it go.
  lemma WhyGone(h: set<Version>, now: int, v: Version) returns (u: Version)
    requires v in h && v !in Kept(h, now)
    requires forall u :: u in h ==> now - u.created >= KEEP_TEN_MINUTELY_FOR
    ensures v.savedBy.None? && u in h && DayOf(u) == DayOf(v) && u.number > v.number
  {
    u :| u in h && u.number > v.number && Aged(u, now) && SlotOf(u, now) == SlotOf(v, now);
  }

  lemma GoesFor(h: set<Version>, now: int, v: Version, u: Version)
    requires v in h && u in h && v.savedBy.None? && DayOf(u) == DayOf(v) && u.number > v.number
    requires now - v.created >= KEEP_TEN_MINUTELY_FOR && now - u.created >= KEEP_TEN_MINUTELY_FOR
    ensures v !in Kept(h, now)
  {
    assert Aged(u, now) && SlotOf(u, now) == SlotOf(v, now);
  }

  lemma GoneFromBoth(full: set<Version>, thin: set<Version>, now: int, v: Version)
    requires Thinned(full, thin) && v in thin && v !in Kept(full, now)
    requires forall v :: v in full ==> now - v.created >= KEEP_TEN_MINUTELY_FOR
    ensures v !in Kept(thin, now)
  {
    var u := WhyGone(full, now, v);
    var w := KeptOfDay(full, thin, u);
    GoesFor(thin, now, v, w);
  }

  /** A last prune when everything is a day old makes up for whatever was pruned before. */
  lemma LastPruneDecides(full: set<Version>, thin: set<Version>, now: int)
    requires Thinned(full, thin)
    requires forall v :: v in full ==> now - v.created >= KEEP_TEN_MINUTELY_FOR
    ensures Kept(thin, now) == Kept(full, now)
  {
    forall v | v in Kept(full, now)
      ensures v in Kept(thin, now)
    {
      KeptByBoth(full, thin, now, v);
    }
    forall v | v in Kept(thin, now)
      ensures v in Kept(full, now)
    {
      if v !in Kept(full, now) {
        GoneFromBoth(full, thin, now, v);
      }
    }
  }

  // --- numbering --------------------------------------------------------------------

  lemma {:induction false} LatestExists(h: set<Version>)
    requires h != {}
    ensures exists v :: Latest(h, v)
    decreases h
  {
    var v :| v in h;
    if h == {v} {
      assert Latest(h, v);
    } else {
      LatestExists(h - {v});
      var u :| Latest(h - {v}, u);
      assert Latest(h, if v.number <= u.number then u else v);
    }
  }

  ghost function LatestOf(h: set<Version>): (v: Version)
    requires h != {}
    ensures Latest(h, v)
  {
    LatestExists(h);
    var v :| Latest(h, v);
    v
  }

  // `_checkpoint_room`: a new version, a promotion to a save, or nothing.
  ghost function Checkpointed(h: set<Version>, payload: Bytes, savedBy: Option<nat>, id: nat, created: int)
    : set<Version>
  {
    if payload != [] && (h == {} || LatestOf(h).snapshot != payload) then
      h + {Version(id, if h == {} then 1 else LatestOf(h).number + 1, payload, created, savedBy)}
    else if savedBy.Some? && h != {} && LatestOf(h).savedBy.None? then
      h - {LatestOf(h)} + {LatestOf(h).(savedBy := savedBy)}
    else h
  }

  datatype Event = Saves(payload: Bytes, savedBy: Option<nat>, created: int) | Prunes(now: int)

  // The history after the events, each saved row getting the next id.
  ghost function Play(h: set<Version>, id: nat, events: seq<Event>): set<Version>
    decreases |events|
  {
    if events == [] then h
    else
      match events[0]
      case Saves(p, by', c) => Play(Checkpointed(h, p, by', id, c), id + 1, events[1..])
      case Prunes(now) => Play(Kept(h, now), id + 1, events[1..])
  }

  // The same events with every prune left out.
  ghost function PlayUnpruned(h: set<Version>, id: nat, events: seq<Event>): set<Version>
    decreases |events|
  {
    if events == [] then h
    else
      match events[0]
      case Saves(p, by', c) => PlayUnpruned(Checkpointed(h, p, by', id, c), id + 1, events[1..])
      case Prunes(now) => PlayUnpruned(h, id + 1, events[1..])
  }

  lemma LatestIsShared(full: set<Version>, thin: set<Version>)
    requires Thinned(full, thin) && full != {}
    ensures thin != {} && LatestOf(thin) == LatestOf(full)
  {
    var l := LatestOf(full);
    assert !NewerSameDay(full, l);
    assert l in thin && LatestOf(thin) in full;
  }

  lemma CheckpointThins(full: set<Version>, thin: set<Version>, p: Bytes, savedBy: Option<nat>, id: nat, c: int)
    requires Thinned(full, thin) && forall v :: v in full ==> v.id < id
    ensures Thinned(Checkpointed(full, p, savedBy, id, c), Checkpointed(thin, p, savedBy, id, c))
    ensures forall v :: v in Checkpointed(full, p, savedBy, id, c) ==> v.id < id + 1
  {
    var full', thin' := Checkpointed(full, p, savedBy, id, c), Checkpointed(thin, p, savedBy, id, c);
    if full != {} {
      LatestIsShared(full, thin);
      var l := LatestOf(full);
      forall v | v in full' && v !in thin'
        ensures v.savedBy.None? && NewerSameDay(full', v)
      {
        assert v in full && v !in thin;
        var u :| u in full && u.number > v.number && DayOf(u) == DayOf(v);
        var u' := if u in full' then u else l.(savedBy := savedBy);
        assert u' in full' && u'.number > v.number && DayOf(u') == DayOf(v);
      }
    } else {
      assert thin == {};
    }
  }

  lemma {:induction false} PlayThins(full: set<Version>, thin: set<Version>, id: nat, events: seq<Event>)
    requires Thinned(full, thin) && forall v :: v in full ==> v.id < id
    ensures Thinned(PlayUnpruned(full, id, events), Play(thin, id, events))
    decreases |events|
  {
    if events == [] {
    } else {
      match events[0] {
        case Saves(p, by', c) =>
          CheckpointThins(full, thin, p, by', id, c);
          PlayThins(Checkpointed(full, p, by', id, c), Checkpointed(thin, p, by', id, c), id + 1, events[1..]);
        case Prunes(now) =>
          PruneThins(full, thin, now);
          PlayThins(full, Kept(thin, now), id + 1, events[1..]);
      }
    }
  }

  /** Any schedule of prunes among autosaves, saves and promotions, ended by one taken when
      every version is at least a day old, leaves what that last prune alone would leave. */
  lemma AnyScheduleOfPrunes(events: seq<Event>, now: int)
    requires forall v :: v in PlayUnpruned({}, 0, events) ==> now - v.created >= KEEP_TEN_MINUTELY_FOR
    ensures Kept(Play({}, 0, events), now) == Kept(PlayUnpruned({}, 0, events), now)
  {
    PlayThins({}, {}, 0, events);
    LastPruneDecides(PlayUnpruned({}, 0, events), Play({}, 0, events), now);
  }

  // --- the threshold -----------------------------------------------------------------

  // `prune_versions` for one file: short histories are not looked at.
  ghost function PruneFile(h: set<Version>, now: int): set<Version> {
    if |h| >= PRUNE_MIN_VERSIONS then Kept(h, now) else h
  }

  /** With the threshold the schedule matters: the last run makes up for the earlier ones
      exactly when enough versions are left for it to look, or none was left to thin. */
  lemma ThresholdDecides(full: set<Version>, thin: set<Version>, now: int)
    requires Thinned(full, thin) && |full| >= PRUNE_MIN_VERSIONS
    requires forall v :: v in full ==> now - v.created >= KEEP_TEN_MINUTELY_FOR
    ensures PruneFile(thin, now) == PruneFile(full, now)
            <==> |thin| >= PRUNE_MIN_VERSIONS || forall v :: v in thin ==> !Prunable(thin, v, now)
  {
    LastPruneDecides(full, thin, now);
    if forall v :: v in thin ==> !Prunable(thin, v, now) {
      assert Kept(thin, now) == thin;
    }
  }

  // The history after the events, each prune a run of `prune_versions`.
  ghost function PlayFiles(h: set<Version>, id: nat, events: seq<Event>): set<Version>
    decreases |events|
  {
    if events == [] then h
    else
      match events[0]
      case Saves(p, by', c) => PlayFiles(Checkpointed(h, p, by', id, c), id + 1, events[1..])
      case Prunes(now) => PlayFiles(PruneFile(h, now), id + 1, events[1..])
  }

  lemma {:induction false} PlayFilesThins(full: set<Version>, thin: set<Version>, id: nat, events: seq<Event>)
    requires Thinned(full, thin) && forall v :: v in full ==> v.id < id
    ensures Thinned(PlayUnpruned(full, id, events), PlayFiles(thin, id, events))
    decreases |events|
  {
    if events == [] {
    } else {
      match events[0] {
        case Saves(p, by', c) =>
          CheckpointThins(full, thin, p, by', id, c);
          PlayFilesThins(Checkpointed(full, p, by', id, c), Checkpointed(thin, p, by', id, c), id + 1, events[1..]);
        case Prunes(now) =>
          PruneThins(full, thin, now);
          PlayFilesThins(full, PruneFile(thin, now), id + 1, events[1..]);
      }
    }
  }

  // A checkpoint adds a row, replaces one, or does nothing.
  lemma CheckpointGrows(h: set<Version>, p: Bytes, savedBy: Option<nat>, id: nat, c: int)
    requires Distinct(h) && forall v :: v in h ==> v.id < id
    ensures |Checkpointed(h, p, savedBy, id, c)| >= |h|
  {
    var h' := Checkpointed(h, p, savedBy, id, c);
    if h <= h' {
      SubsetIsSmaller(h, h');
    } else {
      var l := LatestOf(h);
      assert l.(savedBy := savedBy) !in h - {l};
      assert |h - {l}| == |h| - 1;
    }
  }

  lemma {:induction false} UnprunedGrows(h: set<Version>, id: nat, events: seq<Event>)
    requires Distinct(h) && forall v :: v in h ==> v.id < id
    ensures |PlayUnpruned(h, id, events)| >= |h|
    decreases |events|
  {
    if events == [] {
    } else {
      match events[0] {
        case Saves(p, by', c) =>
          CheckpointGrows(h, p, by', id, c);
          CheckpointThins(h, h, p, by', id, c);
          UnprunedGrows(Checkpointed(h, p, by', id, c), id + 1, events[1..]);
        case Prunes(_) => UnprunedGrows(h, id + 1, events[1..]);
      }
    }
  }

  // A history that stays short is never pruned.
  lemma {:induction false} ShortStaysWhole(h: set<Version>, id: nat, events: seq<Event>)
    requires Distinct(h) && forall v :: v in h ==> v.id < id
    requires |PlayUnpruned(h, id, events)| < PRUNE_MIN_VERSIONS
    ensures PlayFiles(h, id, events) == PlayUnpruned(h, id, events)
    decreases |events|
  {
    if events == [] {
    } else {
      UnprunedGrows(h, id, events);
      match events[0] {
        case Saves(p, by', c) =>
          CheckpointThins(h, h, p, by', id, c);
          ShortStaysWhole(Checkpointed(h, p, by', id, c), id + 1, events[1..]);
        case Prunes(_) => ShortStaysWhole(h, id + 1, events[1..]);
      }
    }
  }

  /** For any schedule of runs of `prune_versions` among autosaves, saves and promotions: the last
      one, taken when every version is at least a day old, leaves what it alone would leave
      exactly when there were never thirty versions, or thirty are left for it to look at, or
      nothing is left to thin. */
  lemma ScheduleDecides(events: seq<Event>, now: int)
    requires forall v :: v in PlayUnpruned({}, 0, events) ==> now - v.created >= KEEP_TEN_MINUTELY_FOR
    ensures var full, thin := PlayUnpruned({}, 0, events), PlayFiles({}, 0, events);
            PruneFile(thin, now) == PruneFile(full, now)
            <==> |full| < PRUNE_MIN_VERSIONS || |thin| >= PRUNE_MIN_VERSIONS
                 || forall v :: v in thin ==> !Prunable(thin, v, now)
  {
    var full, thin := PlayUnpruned({}, 0, events), PlayFiles({}, 0, events);
    if |full| < PRUNE_MIN_VERSIONS {
      ShortStaysWhole({}, 0, events);
    } else {
      PlayFilesThins({}, {}, 0, events);
      ThresholdDecides(full, thin, now);
    }
  }

  // Thirty autosaves of one day, ten minutes apart, the first two in the same slot.
  function SlotRow(n: nat): Version {
    Version(n, n, [n % 256], (600 * (if n < 2 then 2 else n) + n) * SECOND, None)
  }

  function {:induction false} SlotRows(k: nat): (h: set<Version>)
    ensures |h| == k && forall v :: v in h <==> 1 <= v.number <= k && v == SlotRow(v.number)
  {
    if k == 0 then {} else SlotRows(k - 1) + {SlotRow(k)}
  }

  lemma SlotRowTimes(n: nat)
    ensures Timestamp(SlotRow(n)) == 600 * (if n < 2 then 2 else n) + n
    ensures 2 <= n < 100 ==> Timestamp(SlotRow(n)) / 600 == n && DayOf(SlotRow(n)) == 0
  {
  }

  lemma FirstSlotRowGoes(k: nat, early: int)
    requires 2 <= k < 30_000 && early == 30_000 * SECOND
    ensures Prunable(SlotRows(k), SlotRow(1), early)
  {
    var full := SlotRows(k);
    SlotRowTimes(1);
    SlotRowTimes(2);
    assert SlotRow(1) in full && SlotRow(2) in full;
    assert SlotOf(SlotRow(1), early) == SlotOf(SlotRow(2), early);
    assert Covered(full, SlotRow(1), early);
  }

  lemma SlotRowSlot(n: nat, early: int)
    requires 2 <= n < 100 && early == 30_000 * SECOND
    ensures SlotOf(SlotRow(n), early) == TenMinutes(n)
  {
    SlotRowTimes(n);
    assert SlotRow(n).created == (600 * n + n) * SECOND >= 0;
  }

  lemma MiddleSlotRowStays(k: nat, early: int)
    requires 15 <= k < 100 && early == 30_000 * SECOND
    ensures SlotRow(15) in Kept(SlotRows(k), early)
  {
    var full := SlotRows(k);
    SlotRowSlot(15, early);
    assert SlotRow(15) in full;
    forall u | u in full && u.number > 15
      ensures SlotOf(u, early) != SlotOf(SlotRow(15), early)
    {
      assert u == SlotRow(u.number);
      SlotRowSlot(u.number, early);
    }
    assert !Covered(full, SlotRow(15), early);
  }

  lemma MiddleSlotRowGoesLater(k: nat, late: int)
    requires 16 <= k < 100 && late == 300_000 * SECOND
    ensures SlotRow(15) !in Kept(SlotRows(k), late)
    ensures forall v :: v in SlotRows(k) ==> late - v.created >= KEEP_TEN_MINUTELY_FOR
  {
    var full := SlotRows(k);
    SlotRowTimes(15);
    SlotRowTimes(16);
    assert SlotRow(15) in full && SlotRow(16) in full && SlotRow(16).number > SlotRow(15).number;
    forall v | v in full
      ensures late - v.created >= KEEP_TEN_MINUTELY_FOR
    {
      assert v == SlotRow(v.number);
    }
    DailyHistory(full, late, SlotRow(15));
  }

  lemma SlotRowsDistinct(k: nat)
    ensures Distinct(SlotRows(k))
  {
    forall u, v | u in SlotRows(k) && v in SlotRows(k) && (u.number == v.number || u.id == v.id)
      ensures u == v
    {
      assert u == SlotRow(u.number) && v == SlotRow(v.number);
      assert u.id == u.number && v.id == v.number;
    }
  }

  lemma ThinnedPair(full: set<Version>, early: int, late: int, gone: Version, middle: Version)
    requires |full| == PRUNE_MIN_VERSIONS
    requires Prunable(full, gone, early) && middle in Kept(full, early) && middle !in Kept(full, late)
    ensures PruneFile(PruneFile(full, early), late) != PruneFile(full, late)
  {
    var thin := Kept(full, early);
    assert gone in full && gone !in thin;
    ProperSubsetIsSmaller(thin, full);
    assert PruneFile(full, early) == thin && PruneFile(thin, late) == thin;
  }

  /** Thirty rows thinned to 29 within the day stay 29 for ever; unthinned they become one. */
  lemma ThresholdCanStopThinning() returns (full: set<Version>, early: int, late: int)
    ensures Distinct(full) && |full| == PRUNE_MIN_VERSIONS
    ensures forall v :: v in full ==> late - v.created >= KEEP_TEN_MINUTELY_FOR
    ensures PruneFile(PruneFile(full, early), late) != PruneFile(full, late)
  {
    var k: nat :| k == PRUNE_MIN_VERSIONS;
    full, early, late := SlotRows(k), 30_000 * SECOND, 300_000 * SECOND;
    SlotRowsDistinct(k);
    FirstSlotRowGoes(k, early);
    MiddleSlotRowStays(k, early);
    MiddleSlotRowGoesLater(k, late);
    ThinnedPair(full, early, late, SlotRow(1), SlotRow(15));
  }

  // The autosaves that write the rows `k` to `n`.
  function SlotSaves(k: nat, n: nat): seq<Event>
    decreases n + 1 - k
  {
    if k > n then [] else [Saves(SlotRow(k).snapshot, None, SlotRow(k).created)] + SlotSaves(k + 1, n)
  }

  lemma LatestSlotRow(k: nat)
    requires k > 0
    ensures SlotRows(k) != {} && LatestOf(SlotRows(k)) == SlotRow(k)
  {
    var l := LatestOf(SlotRows(k));
    assert SlotRow(k) in SlotRows(k) && l == SlotRow(l.number);
  }

  lemma OtherText(n: nat)
    ensures [n % 256] != [(n + 1) % 256]
  {
    assert [n % 256][0] != [(n + 1) % 256][0];
  }

  lemma NewTextIsAdded(h: set<Version>, v: Version)
    requires v.snapshot != [] && v.savedBy.None?
    requires h != {} ==> LatestOf(h).snapshot != v.snapshot && v.number == LatestOf(h).number + 1
    requires h == {} ==> v.number == 1
    ensures Checkpointed(h, v.snapshot, None, v.id, v.created) == h + {v}
  {
  }

  lemma SlotRowIsSaved(k: nat)
    requires k > 0
    ensures Checkpointed(SlotRows(k - 1), SlotRow(k).snapshot, None, k, SlotRow(k).created) == SlotRows(k)
  {
    if k > 1 {
      LatestSlotRow(k - 1);
      OtherText(k - 1);
    }
    NewTextIsAdded(SlotRows(k - 1), SlotRow(k));
  }

  lemma OneSave(h: set<Version>, id: nat, v: Version, events: seq<Event>)
    requires Checkpointed(h, v.snapshot, None, id, v.created) == h + {v}
    ensures var save := Saves(v.snapshot, None, v.created);
            && PlayFiles(h, id, [save] + events) == PlayFiles(h + {v}, id + 1, events)
            && PlayUnpruned(h, id, [save] + events) == PlayUnpruned(h + {v}, id + 1, events)
  {
    assert ([Saves(v.snapshot, None, v.created)] + events)[1..] == events;
  }

  lemma {:induction false} SlotRowsArePlayed(k: nat, n: nat, then': seq<Event>)
    requires 0 < k <= n + 1
    ensures PlayFiles(SlotRows(k - 1), k, SlotSaves(k, n) + then') == PlayFiles(SlotRows(n), n + 1, then')
    ensures PlayUnpruned(SlotRows(k - 1), k, SlotSaves(k, n) + then') == PlayUnpruned(SlotRows(n), n + 1, then')
    decreases n + 1 - k
  {
    if k == n + 1 {
      assert SlotSaves(k, n) + then' == then';
    } else {
      var save := Saves(SlotRow(k).snapshot, None, SlotRow(k).created);
      assert SlotSaves(k, n) + then' == [save] + (SlotSaves(k + 1, n) + then');
      SlotRowIsSaved(k);
      OneSave(SlotRows(k - 1), k, SlotRow(k), SlotSaves(k + 1, n) + then');
      SlotRowsArePlayed(k + 1, n, then');
    }
  }

  // The autosaves and a prune. A first prune finds nothing, so that the rows get the ids from 1 on.
  function SlotSchedule(k: nat, early: int): seq<Event> {
    [Prunes(early)] + (SlotSaves(1, k) + [Prunes(early)])
  }

  lemma SlotScheduleIsPlayed(k: nat, early: int)
    ensures PlayFiles({}, 0, SlotSchedule(k, early)) == PruneFile(SlotRows(k), early)
    ensures PlayUnpruned({}, 0, SlotSchedule(k, early)) == SlotRows(k)
  {
    var then' := [Prunes(early)];
    assert SlotSchedule(k, early)[1..] == SlotSaves(1, k) + then';
    assert SlotRows(0) == {} && then'[1..] == [];
    SlotRowsArePlayed(1, k, then');
    var rows := PruneFile(SlotRows(k), early);
    assert PlayFiles(rows, k + 2, []) == rows;
    assert PlayFiles(SlotRows(k), k + 1, then') == rows;
    assert PlayUnpruned(SlotRows(k), k + 1, then') == PlayUnpruned(SlotRows(k), k + 2, []) == SlotRows(k);
  }

  /** A schedule that ends so: thirty autosaves of one day, a prune that day, and one days later. */
  lemma ScheduleCanStopThinning() returns (events: seq<Event>, now: int)
    ensures forall v :: v in PlayUnpruned({}, 0, events) ==> now - v.created >= KEEP_TEN_MINUTELY_FOR
    ensures PruneFile(PlayFiles({}, 0, events), now) != PruneFile(PlayUnpruned({}, 0, events), now)
  {
    var k: nat :| k == PRUNE_MIN_VERSIONS;
    var early := 30_000 * SECOND;
    now := 300_000 * SECOND;
    events := SlotSchedule(k, early);
    SlotScheduleIsPlayed(k, early);
    MiddleSlotRowGoesLater(k, now);
    FirstSlotRowGoes(k, early);
    MiddleSlotRowStays(k, early);
    ThinnedPair(SlotRows(k), early, now, SlotRow(1), SlotRow(15));
  }

  lemma ProperSubsetIsSmaller(a: set<Version>, b: set<Version>)
    requires a < b
    ensures |a| < |b|
  {
    var x :| x in b && x !in a;
    assert a <= b - {x};
    SubsetIsSmaller(a, b - {x});
  }

  lemma {:induction false} SubsetIsSmaller(a: set<Version>, b: set<Version>)
    requires a <= b
    ensures |a| <= |b|
  {
    if a == {} {
    } else {
      var x :| x in a;
      SubsetIsSmaller(a - {x}, b - {x});
    }
  }
}
