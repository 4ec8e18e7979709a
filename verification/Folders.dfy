/** The folder tree of a project: rows with a parent, changed by create, move and cascading delete. */
module Folders {
  import opened Wrappers

  type FolderId = nat
  type ProjectId = nat

  datatype Folder = Folder(project: ProjectId, parent: Option<FolderId>)

  type Rows = map<FolderId, Folder>

  // --- chains of ancestors ----------------------------------------------------

  function Above(rows: Rows, at: Option<FolderId>): Option<FolderId> {
    if at.Some? && at.value in rows then rows[at.value].parent else None
  }

  // `n` steps towards the root.
  function Up(rows: Rows, at: Option<FolderId>, n: nat): Option<FolderId>
    decreases n
  {
    if n == 0 then at else Up(rows, Above(rows, at), n - 1)
  }

  ghost predicate OnChain(rows: Rows, at: Option<FolderId>, f: FolderId) {
    exists n: nat :: Up(rows, at, n) == Some(f)
  }

  ghost predicate Ends(rows: Rows, at: Option<FolderId>) {
    exists n: nat :: Up(rows, at, n) == None
  }

  /** Every parent exists and is in the same project, and every chain of parents ends at a root. */
  ghost predicate Forest(rows: Rows) {
    forall f :: f in rows ==> ParentFits(rows, f) && Ends(rows, Some(f))
  }

  ghost predicate ParentFits(rows: Rows, f: FolderId)
    requires f in rows
  {
    rows[f].parent.Some? ==>
      rows[f].parent.value in rows && rows[rows[f].parent.value].project == rows[f].project
  }

  lemma {:induction false} UpAdds(rows: Rows, at: Option<FolderId>, m: nat, n: nat)
    ensures Up(rows, at, m + n) == Up(rows, Up(rows, at, m), n)
    decreases m
  {
    if m == 0 {
    } else {
      UpAdds(rows, Above(rows, at), m - 1, n);
    }
  }

  lemma UpStep(rows: Rows, at: Option<FolderId>, n: nat)
    ensures Up(rows, at, n + 1) == Above(rows, Up(rows, at, n))
  {
    UpAdds(rows, at, n, 1);
    assert Up(rows, Up(rows, at, n), 1) == Up(rows, Above(rows, Up(rows, at, n)), 0);
  }

  lemma {:induction false} AtTheTop(rows: Rows, n: nat)
    ensures Up(rows, None, n) == None
  {
    if n == 0 {
    } else {
      AtTheTop(rows, n - 1);
    }
  }

  // A set closed under "parent of" holds the whole chain.
  lemma {:induction false} StaysIn(rows: Rows, at: Option<FolderId>, closed: set<FolderId>, n: nat)
    requires at.None? || at.value in closed
    requires forall f :: f in closed ==> Above(rows, Some(f)).None? || Above(rows, Some(f)).value in closed
    ensures var up := Up(rows, at, n); up.None? || up.value in closed
    decreases n
  {
    if n == 0 {
    } else {
      StaysIn(rows, Above(rows, at), closed, n - 1);
    }
  }

  // Coming back to where it was, a chain goes round for ever.
  lemma {:induction false} Loops(rows: Rows, at: Option<FolderId>, period: nat, n: nat)
    requires period > 0 && at.Some? && Up(rows, at, period) == at
    ensures Up(rows, at, n).Some?
  {
    if n >= period {
      UpAdds(rows, at, period, n - period);
      Loops(rows, at, period, n - period);
    } else if Up(rows, at, n).None? {
      UpAdds(rows, at, n, period - n);
      AtTheTop(rows, period - n);
    }
  }

  /** In a forest no folder is inside itself. */
  lemma NoFolderInItself(rows: Rows, f: FolderId, n: nat)
    requires Forest(rows) && f in rows && n > 0
    ensures Up(rows, Some(f), n) != Some(f)
  {
    if Up(rows, Some(f), n) == Some(f) {
      var top: nat :| Up(rows, Some(f), top) == None;
      Loops(rows, Some(f), n, top);
    }
  }

  // --- the check made before a folder gets a parent ---------------------------------

  datatype Verdict = Fine | IntoItself | NotInProject

  ghost predicate InProject(rows: Rows, project: ProjectId, f: FolderId) {
    f in rows && rows[f].project == project
  }

  // The walk gets past the first `n` ancestors of `parent`, itself included.
  ghost predicate Passes(rows: Rows, project: ProjectId, moving: Option<FolderId>, parent: FolderId, n: nat) {
    forall m: nat :: m < n ==>
      var up := Up(rows, Some(parent), m);
      up.Some? && up != moving && InProject(rows, project, up.value)
  }

  // The whole chain is in the project and does not hold the folder being moved.
  ghost predicate Allowed(rows: Rows, project: ProjectId, moving: Option<FolderId>, parent: Option<FolderId>) {
    forall f: FolderId :: OnChain(rows, parent, f) ==> InProject(rows, project, f) && Some(f) != moving
  }

  // The walk from `parent` has seen the `m`-th ancestor.
  ghost predicate SeenAt(rows: Rows, parent: FolderId, seen: set<FolderId>, m: nat) {
    var up := Up(rows, Some(parent), m);
    up.None? || up.value in seen
  }

  lemma NextSeen(rows: Rows, parent: FolderId, seen: set<FolderId>, f: FolderId, m: nat)
    requires Up(rows, Some(parent), m) == Some(f) && SeenAt(rows, parent, seen, m + 1)
    ensures Above(rows, Some(f)).None? || Above(rows, Some(f)).value in seen
  {
    UpStep(rows, Some(parent), m);
  }

  lemma SeeOneMore(rows: Rows, parent: FolderId, seen: set<FolderId>, n: nat, f: FolderId)
    requires forall m: nat :: m < n ==> SeenAt(rows, parent, seen, m)
    requires Up(rows, Some(parent), n) == Some(f)
    ensures forall m: nat :: m <= n ==> SeenAt(rows, parent, seen + {f}, m)
  {
    forall m: nat | m <= n
      ensures SeenAt(rows, parent, seen + {f}, m)
    {
      if m < n {
        assert SeenAt(rows, parent, seen, m);
      }
    }
  }

  // Once the walk is at the root or at a folder it has seen, it has seen the whole chain.
  lemma ChainSeen(rows: Rows, parent: FolderId, seen: set<FolderId>, n: nat)
    requires forall f :: f in seen ==> exists m: nat :: m < n && Up(rows, Some(parent), m) == Some(f)
    requires forall m: nat :: m <= n ==> SeenAt(rows, parent, seen, m)
    ensures forall f :: OnChain(rows, Some(parent), f) ==> f in seen
  {
    forall f | f in seen
      ensures Above(rows, Some(f)).None? || Above(rows, Some(f)).value in seen
    {
      var m: nat :| m < n && Up(rows, Some(parent), m) == Some(f);
      NextSeen(rows, parent, seen, f, m);
    }
    assert SeenAt(rows, parent, seen, 0);
    forall f | OnChain(rows, Some(parent), f)
      ensures f in seen
    {
      var k: nat :| Up(rows, Some(parent), k) == Some(f);
      StaysIn(rows, Some(parent), seen, k);
    }
  }

  /** `_check_parent`: ends even on a table that already has a loop, and says yes exactly when
      the whole ancestor chain of the parent is in the project and free of the moved folder;
      otherwise the first ancestor that is not decides which error it is. */
  method CheckParent(rows: Rows, project: ProjectId, parent: FolderId, moving: Option<FolderId>)
    returns (verdict: Verdict)
    ensures verdict == Fine <==> Allowed(rows, project, moving, Some(parent))
    ensures verdict == IntoItself ==>
              exists n: nat :: Passes(rows, project, moving, parent, n)
                               && moving.Some? && Up(rows, Some(parent), n) == moving
    ensures verdict == NotInProject ==>
              exists n: nat :: Passes(rows, project, moving, parent, n)
                               && var up := Up(rows, Some(parent), n);
                               up.Some? && up != moving && !InProject(rows, project, up.value)
  {
    var current := Some(parent);
    var seen: set<FolderId> := {};
    ghost var n: nat := 0;
    while current.Some? && current.value !in seen
      invariant current == Up(rows, Some(parent), n)
      invariant Passes(rows, project, moving, parent, n)
      invariant forall f :: f in seen ==> f in rows && exists m: nat :: m < n && Up(rows, Some(parent), m) == Some(f)
      invariant forall m: nat :: m < n ==> SeenAt(rows, parent, seen, m)
      decreases rows.Keys - seen
    {
      if current == moving {
        assert OnChain(rows, Some(parent), current.value);
        return IntoItself;
      }
      if current.value !in rows || rows[current.value].project != project {
        assert OnChain(rows, Some(parent), current.value);
        return NotInProject;
      }
      assert current.value in rows.Keys - seen;
      SeeOneMore(rows, parent, seen, n, current.value);
      seen := seen + {current.value};
      current := rows[current.value].parent;
      UpStep(rows, Some(parent), n);
      n := n + 1;
    }
    ChainSeen(rows, parent, seen, n);
    verdict := Fine;
  }

  // --- moving -----------------------------------------------------------------------

  function Moved(rows: Rows, f: FolderId, parent: Option<FolderId>): Rows
    requires f in rows
  {
    rows[f := rows[f].(parent := parent)]
  }

  // Below the moved folder nothing changes.
  lemma {:induction false} SameBelow(rows: Rows, f: FolderId, parent: Option<FolderId>, at: Option<FolderId>, n: nat)
    requires f in rows && forall m: nat :: m < n ==> Up(rows, at, m) != Some(f)
    ensures Up(Moved(rows, f, parent), at, n) == Up(rows, at, n)
    decreases n
  {
    if n == 0 {
    } else {
      assert Up(rows, at, 0) != Some(f);
      forall m: nat | m < n - 1
        ensures Up(rows, Above(rows, at), m) != Some(f)
      {
        assert Up(rows, at, m + 1) != Some(f);
      }
      SameBelow(rows, f, parent, Above(rows, at), n - 1);
    }
  }

  lemma FirstMeeting(rows: Rows, at: Option<FolderId>, f: FolderId) returns (n: nat)
    requires OnChain(rows, at, f)
    ensures Up(rows, at, n) == Some(f) && forall m: nat :: m < n ==> Up(rows, at, m) != Some(f)
  {
    var some: nat :| Up(rows, at, some) == Some(f);
    n := 0;
    while Up(rows, at, n) != Some(f)
      invariant n <= some && forall m: nat :: m < n ==> Up(rows, at, m) != Some(f)
      decreases some - n
    {
      n := n + 1;
    }
  }

  // A chain that avoids the moved folder still ends.
  lemma EndsApart(rows: Rows, f: FolderId, parent: Option<FolderId>, at: Option<FolderId>)
    requires f in rows && Ends(rows, at) && !OnChain(rows, at, f)
    ensures Ends(Moved(rows, f, parent), at)
  {
    var n: nat :| Up(rows, at, n) == None;
    SameBelow(rows, f, parent, at, n);
  }

  lemma EndsThrough(rows: Rows, f: FolderId, parent: Option<FolderId>, at: Option<FolderId>)
    requires f in rows && OnChain(rows, at, f) && Ends(Moved(rows, f, parent), parent)
    ensures Ends(Moved(rows, f, parent), at)
  {
    var after := Moved(rows, f, parent);
    var n := FirstMeeting(rows, at, f);
    SameBelow(rows, f, parent, at, n);
    UpStep(after, at, n);
    var top: nat :| Up(after, parent, top) == None;
    UpAdds(after, at, n + 1, top);
  }

  lemma LoopsAfter(rows: Rows, f: FolderId, parent: Option<FolderId>)
    requires f in rows && OnChain(rows, parent, f)
    ensures !Ends(Moved(rows, f, parent), Some(f))
  {
    var after := Moved(rows, f, parent);
    var n := FirstMeeting(rows, parent, f);
    SameBelow(rows, f, parent, parent, n);
    assert Up(after, Some(f), n + 1) == Up(after, parent, n) == Some(f);
    forall top: nat
      ensures Up(after, Some(f), top) != None
    {
      Loops(after, Some(f), n + 1, top);
    }
  }

  /** Moving a folder of the tree under another of its project keeps the tree exactly when the
      moved folder is not among the ancestors of the new parent. */
  lemma MoveKeepsForest(rows: Rows, f: FolderId, parent: Option<FolderId>)
    requires Forest(rows) && f in rows
    requires parent.Some? ==> InProject(rows, rows[f].project, parent.value)
    ensures Forest(Moved(rows, f, parent)) <==> !OnChain(rows, parent, f)
  {
    var after := Moved(rows, f, parent);
    if OnChain(rows, parent, f) {
      LoopsAfter(rows, f, parent);
      assert f in after;
    } else {
      assert Ends(rows, parent) by {
        if parent.None? {
          assert Up(rows, None, 0) == None;
        }
      }
      EndsApart(rows, f, parent, parent);
      forall g | g in after
        ensures ParentFits(after, g) && Ends(after, Some(g))
      {
        assert ParentFits(rows, g) && Ends(rows, Some(g));
        if OnChain(rows, Some(g), f) {
          EndsThrough(rows, f, parent, Some(g));
        } else {
          EndsApart(rows, f, parent, Some(g));
        }
      }
    }
  }

  /** A folder takes everything inside it along, and nothing else. */
  lemma SubtreeMovesAlong(rows: Rows, f: FolderId, parent: Option<FolderId>, g: FolderId)
    requires f in rows
    ensures OnChain(Moved(rows, f, parent), Some(g), f) <==> OnChain(rows, Some(g), f)
  {
    var after := Moved(rows, f, parent);
    if OnChain(rows, Some(g), f) {
      var n := FirstMeeting(rows, Some(g), f);
      SameBelow(rows, f, parent, Some(g), n);
    }
    if OnChain(after, Some(g), f) {
      var n := FirstMeeting(after, Some(g), f);
      SameBelow(after, f, rows[f].parent, Some(g), n);
      assert Moved(after, f, rows[f].parent) == rows;
    }
  }

  // --- creating and deleting ----------------------------------------------------------

  // Rows that keep their parents keep their chains, as far as those stay among them.
  lemma {:induction false} SameChain(rows: Rows, after: Rows, at: Option<FolderId>, n: nat)
    requires at.None? || at.value in after
    requires forall f :: f in after && f in rows ==> after[f] == rows[f]
    requires forall f :: f in after && f in rows && rows[f].parent.Some? ==>
                           rows[f].parent.value in after && rows[f].parent.value in rows
    requires at.Some? ==> at.value in rows
    ensures Up(after, at, n) == Up(rows, at, n)
    decreases n
  {
    if n == 0 {
    } else {
      SameChain(rows, after, Above(rows, at), n - 1);
    }
  }

  lemma CreateKeepsForest(rows: Rows, f: FolderId, project: ProjectId, parent: Option<FolderId>)
    requires Forest(rows) && f !in rows
    requires parent.Some? ==> InProject(rows, project, parent.value)
    ensures Forest(rows[f := Folder(project, parent)])
  {
    var after := rows[f := Folder(project, parent)];
    forall g | g in rows
      ensures ParentFits(after, g) && Ends(after, Some(g))
    {
      assert ParentFits(rows, g);
      var n: nat :| Up(rows, Some(g), n) == None;
      assert forall h :: h in rows ==> ParentFits(rows, h);
      SameChain(rows, after, Some(g), n);
    }
    assert Ends(after, Some(f)) by {
      if parent.Some? {
        var n: nat :| Up(after, parent, n) == None;
        assert Up(after, Some(f), n + 1) == None;
      } else {
        assert Up(after, Some(f), 1) == None;
      }
    }
  }

  ghost function Without(rows: Rows, f: FolderId): Rows {
    map g | g in rows && !OnChain(rows, Some(g), f) :: rows[g]
  }

  lemma ChildToo(rows: Rows, f: FolderId, g: FolderId)
    requires g in rows && OnChain(rows, rows[g].parent, f)
    ensures OnChain(rows, Some(g), f)
  {
    var n: nat :| Up(rows, rows[g].parent, n) == Some(f);
    assert Up(rows, Some(g), n + 1) == Some(f);
  }

  lemma DeleteKeepsForest(rows: Rows, f: FolderId)
    requires Forest(rows)
    ensures Forest(Without(rows, f))
  {
    var after := Without(rows, f);
    forall g | g in after && rows[g].parent.Some?
      ensures rows[g].parent.value in after && rows[g].parent.value in rows
    {
      assert ParentFits(rows, g);
      if OnChain(rows, rows[g].parent, f) {
        ChildToo(rows, f, g);
      }
    }
    forall g | g in after
      ensures ParentFits(after, g) && Ends(after, Some(g))
    {
      assert ParentFits(rows, g);
      var n: nat :| Up(rows, Some(g), n) == None;
      SameChain(rows, after, Some(g), n);
    }
  }

  ghost predicate HoldsChildren(rows: Rows, gone: set<FolderId>) {
    forall g :: g in rows && rows[g].parent.Some? && rows[g].parent.value in gone ==> g in gone
  }

  /** The rows a cascading delete takes: the folder and everything below it, level by level. */
  method Subtree(rows: Rows, f: FolderId) returns (gone: set<FolderId>)
    requires f in rows
    ensures forall g :: g in gone <==> g in rows && OnChain(rows, Some(g), f)
  {
    gone := {f};
    assert Up(rows, Some(f), 0) == Some(f);
    var level := {f};
    while level != {}
      invariant gone <= rows.Keys && f in gone
      invariant forall g :: g in gone ==> OnChain(rows, Some(g), f)
      invariant level == {} ==> HoldsChildren(rows, gone)
      decreases rows.Keys - gone, level
    {
      level := set g | g in rows && g !in gone && rows[g].parent.Some? && rows[g].parent.value in gone;
      forall g | g in level
        ensures OnChain(rows, Some(g), f)
      {
        ChildToo(rows, f, g);
      }
      ghost var before := gone;
      gone := gone + level;
      assert level != {} ==> rows.Keys - gone < rows.Keys - before by {
        if level != {} {
          var g :| g in level;
          assert g in rows.Keys - before && g !in rows.Keys - gone;
        }
      }
    }
    forall g | g in rows && OnChain(rows, Some(g), f)
      ensures g in gone
    {
      var n: nat :| Up(rows, Some(g), n) == Some(f);
      CaughtBelow(rows, f, gone, g, n);
    }
  }

  lemma {:induction false} CaughtBelow(rows: Rows, f: FolderId, gone: set<FolderId>, g: FolderId, n: nat)
    requires f in gone && f in rows && g in rows && Up(rows, Some(g), n) == Some(f)
    requires HoldsChildren(rows, gone)
    ensures g in gone
    decreases n
  {
    if n == 0 {
    } else {
      var up := rows[g].parent;
      if up.None? {
        AtTheTop(rows, n - 1);
      } else if up.value in rows {
        CaughtBelow(rows, f, gone, up.value, n - 1);
      } else if n > 1 {
        AtTheTop(rows, n - 2);
      }
    }
  }

  // --- requests ---------------------------------------------------------------------------

  // The table and the next id the database will give out.
  datatype Table = Table(rows: Rows, next: FolderId)

  datatype Request =
    | Create(project: ProjectId, parent: Option<FolderId>)
    | Move(project: ProjectId, folder: FolderId, parent: Option<FolderId>)
    | Delete(project: ProjectId, folder: FolderId)

  // One request, start to end.
  ghost function Handle(t: Table, r: Request): Table {
    match r
    case Create(project, parent) =>
      if Allowed(t.rows, project, None, parent) then
        Table(t.rows[t.next := Folder(project, parent)], t.next + 1)
      else t
    case Move(project, f, parent) =>
      if InProject(t.rows, project, f) && Allowed(t.rows, project, Some(f), parent) then
        Table(Moved(t.rows, f, parent), t.next)
      else t
    case Delete(project, f) =>
      if InProject(t.rows, project, f) then Table(Without(t.rows, f), t.next) else t
  }

  ghost function HandleAll(t: Table, requests: seq<Request>): Table
    decreases |requests|
  {
    if requests == [] then t else HandleAll(Handle(t, requests[0]), requests[1..])
  }

  ghost predicate Inv(t: Table) {
    Forest(t.rows) && forall f :: f in t.rows ==> f < t.next
  }

  lemma AllowedParent(rows: Rows, project: ProjectId, moving: Option<FolderId>, parent: Option<FolderId>)
    requires Allowed(rows, project, moving, parent)
    ensures parent.Some? ==> InProject(rows, project, parent.value)
    ensures moving.Some? ==> !OnChain(rows, parent, moving.value)
  {
    if parent.Some? {
      assert Up(rows, parent, 0) == parent;
      assert OnChain(rows, parent, parent.value);
    }
  }

  lemma HandleKeeps(t: Table, r: Request)
    requires Inv(t)
    ensures Inv(Handle(t, r))
  {
    match r
    case Create(project, parent) =>
      if Allowed(t.rows, project, None, parent) {
        AllowedParent(t.rows, project, None, parent);
        CreateKeepsForest(t.rows, t.next, project, parent);
      }
    case Move(project, f, parent) =>
      if InProject(t.rows, project, f) && Allowed(t.rows, project, Some(f), parent) {
        AllowedParent(t.rows, project, Some(f), parent);
        MoveKeepsForest(t.rows, f, parent);
      }
    case Delete(project, f) =>
      if InProject(t.rows, project, f) {
        DeleteKeepsForest(t.rows, f);
      }
  }

  /** However many requests come one after the other, the table stays a forest within each project. */
  lemma {:induction false} RunKeeps(t: Table, requests: seq<Request>)
    requires Inv(t)
    ensures Inv(HandleAll(t, requests))
    decreases |requests|
  {
    if requests == [] {
    } else {
      HandleKeeps(t, requests[0]);
      RunKeeps(Handle(t, requests[0]), requests[1..]);
    }
  }

  // The whole chain of a folder is in its project: in a forest the walk only ever refuses
  // a missing or foreign parent, or a folder inside itself.
  lemma {:induction false} ChainInProject(rows: Rows, project: ProjectId, at: Option<FolderId>, n: nat)
    requires Forest(rows) && (at.Some? ==> InProject(rows, project, at.value))
    ensures var up := Up(rows, at, n); up.Some? ==> InProject(rows, project, up.value)
    decreases n
  {
    if n == 0 {
    } else {
      if at.Some? {
        assert ParentFits(rows, at.value);
      }
      ChainInProject(rows, project, Above(rows, at), n - 1);
    }
  }

  /** A move is refused only when it has to be: in a forest the answer is yes exactly when the
      parent is a folder of the project and moving there leaves a forest. */
  lemma AllowedExactlyWhenSafe(rows: Rows, f: FolderId, parent: Option<FolderId>)
    requires Forest(rows) && f in rows
    ensures Allowed(rows, rows[f].project, Some(f), parent) <==>
            (parent.Some? ==> InProject(rows, rows[f].project, parent.value)) && Forest(Moved(rows, f, parent))
  {
    var project := rows[f].project;
    if Allowed(rows, project, Some(f), parent) {
      AllowedParent(rows, project, Some(f), parent);
      MoveKeepsForest(rows, f, parent);
    } else if (parent.Some? ==> InProject(rows, project, parent.value)) && Forest(Moved(rows, f, parent)) {
      MoveKeepsForest(rows, f, parent);
      forall g: FolderId | OnChain(rows, parent, g)
        ensures InProject(rows, project, g)
      {
        var n: nat :| Up(rows, parent, n) == Some(g);
        ChainInProject(rows, project, parent, n);
      }
    }
  }

  // After the first move, what is above the second's new parent.
  lemma ChainAfterMove(rows: Rows, f: FolderId, p: Option<FolderId>, g: FolderId, q: Option<FolderId>)
    requires f in rows && !OnChain(rows, p, f) && !OnChain(rows, q, g)
    ensures OnChain(Moved(rows, f, p), q, g) <==> OnChain(rows, q, f) && OnChain(rows, p, g)
  {
    var after := Moved(rows, f, p);
    if !OnChain(rows, q, f) {
      forall k: nat
        ensures Up(after, q, k) == Up(rows, q, k)
      {
        SameBelow(rows, f, p, q, k);
      }
    } else {
      var n := FirstMeeting(rows, q, f);
      forall k: nat
        ensures k <= n ==> Up(after, q, k) == Up(rows, q, k)
        ensures Up(after, q, n + 1 + k) == Up(rows, p, k)
      {
        if k <= n {
          SameBelow(rows, f, p, q, k);
        }
        SameBelow(rows, f, p, q, n);
        UpStep(after, q, n);
        UpAdds(after, q, n + 1, k);
        SameBelow(rows, f, p, p, k);
      }
      MeetingAfter(rows, after, q, p, n, g);
    }
  }

  lemma MeetingAfter(rows: Rows, after: Rows, q: Option<FolderId>, p: Option<FolderId>, n: nat, g: FolderId)
    requires forall k: nat :: k <= n ==> Up(after, q, k) == Up(rows, q, k)
    requires forall k: nat :: Up(after, q, n + 1 + k) == Up(rows, p, k)
    requires !OnChain(rows, q, g)
    ensures OnChain(after, q, g) <==> OnChain(rows, p, g)
  {
    if OnChain(after, q, g) {
      var k: nat :| Up(after, q, k) == Some(g);
      assert k <= n ==> Up(rows, q, k) == Some(g);
      assert Up(after, q, n + 1 + (k - n - 1)) == Up(rows, p, k - n - 1);
    }
    if OnChain(rows, p, g) {
      var k: nat :| Up(rows, p, k) == Some(g);
      assert Up(after, q, n + 1 + k) == Some(g);
    }
  }

  /** Two moves checked on the same table, then committed one after the other, leave a forest
      exactly unless each folder is above the other's new parent. */
  lemma OverlappingMovesExactly(rows: Rows, f: FolderId, p: Option<FolderId>, g: FolderId, q: Option<FolderId>)
    requires Forest(rows) && f in rows && g in rows && f != g
    requires Allowed(rows, rows[f].project, Some(f), p) && Allowed(rows, rows[g].project, Some(g), q)
    ensures Forest(Moved(Moved(rows, f, p), g, q)) <==> !(OnChain(rows, q, f) && OnChain(rows, p, g))
  {
    AllowedParent(rows, rows[f].project, Some(f), p);
    AllowedParent(rows, rows[g].project, Some(g), q);
    MoveKeepsForest(rows, f, p);
    MoveKeepsForest(Moved(rows, f, p), g, q);
    ChainAfterMove(rows, f, p, g, q);
  }

  /** Two moves whose checks both come before either commits can tie a loop. */
  lemma OverlappingMovesCanLoop()
    returns (rows: Rows, f: FolderId, g: FolderId)
    ensures Forest(rows) && f in rows && g in rows
    ensures Allowed(rows, rows[f].project, Some(f), Some(g)) && Allowed(rows, rows[g].project, Some(g), Some(f))
    ensures !Forest(Moved(Moved(rows, f, Some(g)), g, Some(f)))
  {
    f, g := 1, 2;
    rows := map[f := Folder(7, None), g := Folder(7, None)];
    assert Up(rows, Some(f), 1) == None && Up(rows, Some(g), 1) == None;
    assert Forest(rows);
    var once := Moved(rows, f, Some(g));
    assert Up(once, Some(f), 1) == Some(g);
    RootsApart(rows, f, g);
    RootsApart(rows, g, f);
    AllowedExactlyWhenSafe(rows, f, Some(g));
    AllowedExactlyWhenSafe(rows, g, Some(f));
    MoveKeepsForest(rows, f, Some(g));
    MoveKeepsForest(rows, g, Some(f));
    MoveKeepsForest(once, g, Some(f));
  }

  lemma RootsApart(rows: Rows, f: FolderId, g: FolderId)
    requires f != g && g in rows && rows[g].parent.None?
    ensures !OnChain(rows, Some(g), f)
  {
    forall n: nat
      ensures Up(rows, Some(g), n) != Some(f)
    {
      if n > 0 {
        AtTheTop(rows, n - 1);
      }
    }
  }

  // --- requests that overlap ------------------------------------------------------------------

  // The table and the requests that passed their checks, whenever that was.
  datatype Racing = Racing(table: Table, passed: set<Request>)

  datatype Turn = Checks(request: Request) | Commits(request: Request)

  ghost predicate Acceptable(rows: Rows, r: Request) {
    match r
    case Create(project, parent) => Allowed(rows, project, None, parent)
    case Move(project, f, parent) => InProject(rows, project, f) && Allowed(rows, project, Some(f), parent)
    case Delete(project, f) => InProject(rows, project, f)
  }

  // The foreign key: the parent is still there.
  predicate HasParent(rows: Rows, parent: Option<FolderId>) {
    parent.Some? ==> parent.value in rows
  }

  // A commit by itself, with no check; nothing happens to a folder that is gone, or under one.
  ghost function Commit(t: Table, r: Request): Table {
    match r
    case Create(project, parent) =>
      if HasParent(t.rows, parent) then Table(t.rows[t.next := Folder(project, parent)], t.next + 1) else t
    case Move(_, f, parent) =>
      if f in t.rows && HasParent(t.rows, parent) then Table(Moved(t.rows, f, parent), t.next) else t
    case Delete(_, f) => if f in t.rows then Table(Without(t.rows, f), t.next) else t
  }

  ghost predicate CanTurn(s: Racing, turn: Turn) {
    turn.Commits? ==> turn.request in s.passed
  }

  ghost function TakeTurn(s: Racing, turn: Turn): Racing {
    match turn
    case Checks(r) => if Acceptable(s.table.rows, r) then s.(passed := s.passed + {r}) else s
    case Commits(r) => s.(table := Commit(s.table, r))
  }

  // At this commit the folder is above its new parent.
  ghost predicate Ties(s: Racing, turn: Turn) {
    turn.Commits? && turn.request.Move?
    && turn.request.folder in s.table.rows && HasParent(s.table.rows, turn.request.parent)
    && OnChain(s.table.rows, turn.request.parent, turn.request.folder)
  }

  ghost predicate CanPlay(s: Racing, turns: seq<Turn>)
    decreases |turns|
  {
    turns != [] ==> CanTurn(s, turns[0]) && CanPlay(TakeTurn(s, turns[0]), turns[1..])
  }

  ghost predicate AlwaysForest(s: Racing, turns: seq<Turn>)
    decreases |turns|
  {
    Forest(s.table.rows) && (turns != [] ==> AlwaysForest(TakeTurn(s, turns[0]), turns[1..]))
  }

  ghost predicate NeverTies(s: Racing, turns: seq<Turn>)
    decreases |turns|
  {
    turns != [] ==> !Ties(s, turns[0]) && NeverTies(TakeTurn(s, turns[0]), turns[1..])
  }

  // What a check found out stays so: a folder may go, but its project and its id are its own.
  ghost predicate StillOf(t: Table, project: ProjectId, f: FolderId) {
    f < t.next && (f in t.rows ==> t.rows[f].project == project)
  }

  ghost predicate Remembered(t: Table, r: Request) {
    match r
    case Create(project, parent) => parent.Some? ==> StillOf(t, project, parent.value)
    case Move(project, f, parent) => StillOf(t, project, f) && (parent.Some? ==> StillOf(t, project, parent.value))
    case Delete(_, _) => true
  }

  ghost predicate RacingInv(s: Racing) {
    Inv(s.table) && forall r :: r in s.passed ==> Remembered(s.table, r)
  }

  lemma CheckRemembers(t: Table, r: Request)
    requires Inv(t) && Acceptable(t.rows, r)
    ensures Remembered(t, r)
  {
    match r
    case Create(project, parent) => AllowedParent(t.rows, project, None, parent);
    case Move(project, f, parent) => AllowedParent(t.rows, project, Some(f), parent);
    case Delete(_, _) =>
  }

  lemma CommitRemembers(t: Table, r: Request, other: Request)
    requires Inv(t) && Remembered(t, other)
    ensures Remembered(Commit(t, r), other)
  {
  }

  lemma CommitKeepsForest(t: Table, r: Request)
    requires Inv(t) && Remembered(t, r)
    ensures forall f :: f in Commit(t, r).rows ==> f < Commit(t, r).next
    ensures Forest(Commit(t, r).rows) <==>
            !(r.Move? && r.folder in t.rows && HasParent(t.rows, r.parent) && OnChain(t.rows, r.parent, r.folder))
  {
    match r
    case Create(project, parent) =>
      if HasParent(t.rows, parent) {
        CreateKeepsForest(t.rows, t.next, project, parent);
      }
    case Move(_, f, parent) =>
      if f in t.rows && HasParent(t.rows, parent) {
        MoveKeepsForest(t.rows, f, parent);
      }
    case Delete(_, f) =>
      if f in t.rows {
        DeleteKeepsForest(t.rows, f);
      }
  }

  lemma TurnKeeps(s: Racing, turn: Turn)
    requires RacingInv(s) && CanTurn(s, turn)
    ensures Forest(TakeTurn(s, turn).table.rows) <==> !Ties(s, turn)
    ensures !Ties(s, turn) ==> RacingInv(TakeTurn(s, turn))
  {
    var r := turn.request;
    if turn.Checks? {
      if Acceptable(s.table.rows, r) {
        CheckRemembers(s.table, r);
      }
    } else {
      CommitKeepsForest(s.table, r);
      forall other | other in s.passed
        ensures Remembered(Commit(s.table, r), other)
      {
        CommitRemembers(s.table, r, other);
      }
    }
  }

  /** However checks and commits of any number of requests interleave, the table is a forest all
      the time exactly when no commit moves a folder under one that by then is inside it. */
  lemma {:induction false} OverlappingRequestsExactly(s: Racing, turns: seq<Turn>)
    requires RacingInv(s) && CanPlay(s, turns)
    ensures AlwaysForest(s, turns) <==> NeverTies(s, turns)
    decreases |turns|
  {
    if turns == [] {
    } else {
      TurnKeeps(s, turns[0]);
      if !Ties(s, turns[0]) {
        OverlappingRequestsExactly(TakeTurn(s, turns[0]), turns[1..]);
      }
    }
  }

  /** The folders table behind the three request handlers. */
  class FolderTable {
    var rows: Rows
    var next: FolderId

    ghost function State(): Table
      reads this
    {
      Table(rows, next)
    }

    constructor ()
      ensures State() == Table(map[], 0) && Inv(State())
    {
      rows, next := map[], 0;
    }

    method CreateFolder(project: ProjectId, parent: Option<FolderId>) returns (id: Option<FolderId>)
      requires Inv(State())
      modifies this
      ensures State() == Handle(old(State()), Create(project, parent)) && Inv(State())
      ensures id.Some? ==> id.value !in old(rows) && rows == old(rows)[id.value := Folder(project, parent)]
      ensures id.None? ==> rows == old(rows) && !Allowed(rows, project, None, parent)
    {
      HandleKeeps(State(), Create(project, parent));
      if parent.Some? {
        var verdict := CheckParent(rows, project, parent.value, None);
        if verdict != Fine {
          return None;
        }
      } else {
        NothingAbove(rows);
      }
      id := Some(next);
      rows, next := rows[next := Folder(project, parent)], next + 1;
    }

    method MoveFolder(project: ProjectId, f: FolderId, parent: Option<FolderId>) returns (done: bool)
      requires Inv(State())
      modifies this
      ensures State() == Handle(old(State()), Move(project, f, parent)) && Inv(State())
      ensures done <==> InProject(old(rows), project, f) && Allowed(old(rows), project, Some(f), parent)
    {
      HandleKeeps(State(), Move(project, f, parent));
      if f !in rows || rows[f].project != project {
        return false;
      }
      if parent.Some? {
        var verdict := CheckParent(rows, project, parent.value, Some(f));
        if verdict != Fine {
          return false;
        }
      } else {
        NothingAbove(rows);
      }
      rows := rows[f := rows[f].(parent := parent)];
      done := true;
    }

    method DeleteFolder(project: ProjectId, f: FolderId) returns (done: bool)
      requires Inv(State())
      modifies this
      ensures State() == Handle(old(State()), Delete(project, f)) && Inv(State())
      ensures done <==> InProject(old(rows), project, f)
    {
      HandleKeeps(State(), Delete(project, f));
      if f !in rows || rows[f].project != project {
        return false;
      }
      var gone := Subtree(rows, f);
      assert rows - gone == Without(rows, f);
      rows := rows - gone;
      done := true;
    }
  }

  lemma NothingAbove(rows: Rows)
    ensures forall f: FolderId :: !OnChain(rows, None, f)
  {
    forall n: nat
      ensures Up(rows, None, n) == None
    {
      AtTheTop(rows, n);
    }
  }
}
