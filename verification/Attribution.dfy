/**
 * A room's attribution window: who changed how many characters since it opened,
 * and the line counts it turns into when it closes.  Times are milliseconds.
 */
module Attribution {
  import opened Wrappers
  import opened Changes

  const AUTHOR_SWITCH_MS := 1000

  // Dictionaries, in the order their keys were first set.
  type Weights = seq<(UserId, nat)>
  type Counts = seq<(UserId, Stats)>

  datatype Window = Window(
    text: string,                // the document's text
    windowText: Option<string>,
    authors: Weights,
    started: int,
    lastEdit: int,
    lastAuthor: Option<UserId>,
    pending: Counts)

  function AddWeight(d: Weights, user: UserId, n: nat): Weights {
    if d == [] then [(user, n)]
    else if d[0].0 == user then [(user, d[0].1 + n)] + d[1..]
    else [d[0]] + AddWeight(d[1..], user, n)
  }

  function AddCounts(d: Counts, user: UserId, s: Stats): Counts {
    if d == [] then [(user, s)]
    else if d[0].0 == user then [(user, Stats(d[0].1.added + s.added, d[0].1.removed + s.removed))] + d[1..]
    else [d[0]] + AddCounts(d[1..], user, s)
  }

  function AddAll(d: Counts, shares: Counts): Counts
    decreases |shares|
  {
    if shares == [] then d else AddAll(AddCounts(d, shares[0].0, shares[0].1), shares[1..])
  }

  function WeightsOf(d: Weights): (w: seq<nat>)
    ensures |w| == |d|
  {
    seq(|d|, i requires 0 <= i < |d| => d[i].1)
  }

  function Zip(d: Weights, added: seq<int>, removed: seq<int>): Counts
    requires |d| == |added| == |removed|
  {
    seq(|d|, i requires 0 <= i < |d| => (d[i].0, Stats(added[i], removed[i])))
  }

  function SplitStats(authors: Weights, s: Stats): Counts
    requires s.added >= 0 && s.removed >= 0
  {
    if authors == [] then []
    else if |authors| == 1 then [(authors[0].0, s)]
    else Zip(authors, SharesOf(WeightsOf(authors), s.added), SharesOf(WeightsOf(authors), s.removed))
  }

  function Reset(w: Window): Window {
    w.(windowText := None, authors := [], lastAuthor := None)
  }

  function TextBefore(w: Window): string {
    if w.windowText.Some? then w.windowText.value else ""
  }

  ghost function WindowStats(w: Window, diff: Differ): (s: Stats)
    requires IsDiffer(diff)
    ensures s.added >= 0 && s.removed >= 0
  {
    LineStatsTelescope(TextBefore(w), w.text, diff);
    LineStatsOf(TextBefore(w), w.text, diff)
  }

  ghost function CloseWindow(w: Window, diff: Differ): Window
    requires IsDiffer(diff)
  {
    if w.authors == [] then Reset(w)
    else Reset(w.(pending := AddAll(w.pending, SplitStats(w.authors, WindowStats(w, diff)))))
  }

  // Somebody else after a pause: the previous burst is credited to its author.
  predicate Switches(w: Window, user: UserId, now: int) {
    w.authors != [] && w.lastAuthor != Some(user) && now - w.lastEdit >= AUTHOR_SWITCH_MS
  }

  ghost function ApplyEdit(w: Window, user: UserId, text: string, changed: nat, now: int, diff: Differ): Window
    requires IsDiffer(diff)
  {
    var w1 := if Switches(w, user, now) then CloseWindow(w, diff) else w;
    var w2 := if w1.authors == [] then w1.(windowText := Some(w1.text)) else w1;
    if changed == 0 then w2.(text := text)
    else w2.(text := text,
             started := if w2.authors == [] then now else w2.started,
             authors := AddWeight(w2.authors, user, changed),
             lastEdit := now,
             lastAuthor := Some(user))
  }

  predicate NonZero(c: (UserId, Stats)) {
    c.1 != Stats(0, 0)
  }

  function Closed(pending: Counts): Counts {
    if pending == [] then []
    else if NonZero(pending[0]) then [pending[0]] + Closed(pending[1..])
    else Closed(pending[1..])
  }

  // --- totals ----------------------------------------------------------------

  function Added(c: Counts): int {
    if c == [] then 0 else c[0].1.added + Added(c[1..])
  }

  function Removed(c: Counts): int {
    if c == [] then 0 else c[0].1.removed + Removed(c[1..])
  }

  function Lines(text: string): nat {
    |SplitLines(text)|
  }

  lemma {:induction false} AddCountsTotals(d: Counts, user: UserId, s: Stats)
    ensures Added(AddCounts(d, user, s)) == Added(d) + s.added
    ensures Removed(AddCounts(d, user, s)) == Removed(d) + s.removed
  {
    if d == [] || d[0].0 == user {
    } else {
      AddCountsTotals(d[1..], user, s);
    }
  }

  lemma {:induction false} AddAllTotals(d: Counts, shares: Counts)
    ensures Added(AddAll(d, shares)) == Added(d) + Added(shares)
    ensures Removed(AddAll(d, shares)) == Removed(d) + Removed(shares)
    decreases |shares|
  {
    if shares == [] {
    } else {
      AddCountsTotals(d, shares[0].0, shares[0].1);
      AddAllTotals(AddCounts(d, shares[0].0, shares[0].1), shares[1..]);
    }
  }

  lemma {:induction false} ZipTotals(d: Weights, added: seq<int>, removed: seq<int>)
    requires |d| == |added| == |removed|
    ensures Added(Zip(d, added, removed)) == Sum(added)
    ensures Removed(Zip(d, added, removed)) == Sum(removed)
  {
    if d == [] {
    } else {
      ZipTotals(d[1..], added[1..], removed[1..]);
      assert Zip(d, added, removed)[1..] == Zip(d[1..], added[1..], removed[1..]);
    }
  }

  lemma {:induction false} ClosedTotals(p: Counts)
    ensures Added(Closed(p)) == Added(p) && Removed(Closed(p)) == Removed(p)
  {
    if p == [] {
    } else {
      ClosedTotals(p[1..]);
      assert ([p[0]] + Closed(p[1..]))[1..] == Closed(p[1..]);
    }
  }

  lemma {:induction false} AppendTotals(a: Counts, b: Counts)
    ensures Added(a + b) == Added(a) + Added(b) && Removed(a + b) == Removed(a) + Removed(b)
  {
    if a == [] {
      assert a + b == b;
    } else {
      assert (a + b)[1..] == a[1..] + b;
      AppendTotals(a[1..], b);
    }
  }

  // Everybody in the window typed something.
  ghost predicate Typed(d: Weights) {
    forall i :: 0 <= i < |d| ==> d[i].1 > 0
  }

  lemma {:induction false} TypedSums(w: seq<nat>)
    requires forall i :: 0 <= i < |w| ==> w[i] > 0
    ensures Sum(w) >= |w|
  {
    if w == [] {
    } else {
      TypedSums(w[1..]);
    }
  }

  lemma {:induction false} AddWeightKeepsTyped(d: Weights, user: UserId, n: nat)
    requires Typed(d) && n > 0
    ensures Typed(AddWeight(d, user, n)) && AddWeight(d, user, n) != []
  {
    if d == [] || d[0].0 == user {
    } else {
      AddWeightKeepsTyped(d[1..], user, n);
    }
  }

  /** `split_stats` shares both counts exactly when there is one author, or somebody typed
      something, or there are enough authors to take one line each. */
  lemma SplitIsExactly(authors: Weights, s: Stats)
    requires s.added >= 0 && s.removed >= 0
    ensures Added(SplitStats(authors, s)) == s.added && Removed(SplitStats(authors, s)) == s.removed
            <==> |authors| == 1 || Sum(WeightsOf(authors)) > 0 || (s.added <= |authors| && s.removed <= |authors|)
  {
    var w := WeightsOf(authors);
    if |authors| > 1 {
      SharesAreExact(w, s.added);
      SharesAreExact(w, s.removed);
      ZipTotals(authors, SharesOf(w, s.added), SharesOf(w, s.removed));
    }
  }

  /** A window's counts are shared out exactly, added and removed alike. */
  lemma SplitIsExact(authors: Weights, s: Stats)
    requires authors != [] && Typed(authors) && s.added >= 0 && s.removed >= 0
    ensures Added(SplitStats(authors, s)) == s.added && Removed(SplitStats(authors, s)) == s.removed
  {
    TypedSums(WeightsOf(authors));
    SplitIsExactly(authors, s);
  }

  // --- over a whole run ---------------------------------------------------------

  // A window, the text it was hydrated with, the text when a window last closed,
  // and the rows of `file_changes` written so far.
  datatype Ledger = Ledger(window: Window, hydrated: string, closed: string, written: Counts)

  datatype Event =
    | Edit(user: UserId, text: string, changed: nat, now: int)
    | CheckpointCloses

  // An update with no effect on the text changed no characters.
  predicate Possible(l: Ledger, e: Event) {
    e.Edit? && e.changed == 0 ==> e.text == l.window.text
  }

  ghost function Next(l: Ledger, e: Event, diff: Differ): Ledger
    requires IsDiffer(diff)
  {
    match e
    case Edit(user, text, changed, now) =>
      l.(window := ApplyEdit(l.window, user, text, changed, now, diff),
         closed := if Switches(l.window, user, now) then l.window.text else l.closed)
    case CheckpointCloses =>
      var w := CloseWindow(l.window, diff);
      l.(window := w.(pending := []), closed := l.window.text, written := l.written + Closed(w.pending))
  }

  function Hydrated(text: string): Ledger {
    Ledger(Window(text, None, [], 0, 0, None, []), text, text, [])
  }

  ghost predicate Runs(l: Ledger, events: seq<Event>, m: Ledger, diff: Differ)
    requires IsDiffer(diff)
    decreases |events|
  {
    if events == [] then l == m
    else Possible(l, events[0]) && Runs(Next(l, events[0], diff), events[1..], m, diff)
  }

  ghost predicate Balanced(l: Ledger) {
    var w := l.window;
    && Added(l.written) + Added(w.pending) - Removed(l.written) - Removed(w.pending)
       == Lines(l.closed) - Lines(l.hydrated)
    && Typed(w.authors)
    && (w.authors == [] ==> w.text == l.closed)
    && (w.authors != [] ==> w.windowText == Some(l.closed))
  }

  lemma CloseBalances(l: Ledger, diff: Differ)
    requires IsDiffer(diff) && Balanced(l)
    ensures Balanced(l.(window := CloseWindow(l.window, diff), closed := l.window.text))
    ensures CloseWindow(l.window, diff).authors == [] && CloseWindow(l.window, diff).text == l.window.text
  {
    var w := l.window;
    if w.authors != [] {
      var s := WindowStats(w, diff);
      LineStatsTelescope(l.closed, w.text, diff);
      SplitIsExact(w.authors, s);
      AddAllTotals(w.pending, SplitStats(w.authors, s));
    }
  }

  lemma EditBalances(l: Ledger, e: Event, diff: Differ)
    requires IsDiffer(diff) && Balanced(l) && Possible(l, e) && e.Edit?
    ensures Balanced(Next(l, e, diff))
  {
    var m := l;
    if Switches(l.window, e.user, e.now) {
      CloseBalances(l, diff);
      m := l.(window := CloseWindow(l.window, diff), closed := l.window.text);
    }
    assert Balanced(m);
    if e.changed > 0 {
      AddWeightKeepsTyped(m.window.authors, e.user, e.changed);
    }
  }

  lemma CheckpointBalances(l: Ledger, diff: Differ)
    requires IsDiffer(diff) && Balanced(l)
    ensures Balanced(Next(l, CheckpointCloses, diff))
  {
    CloseBalances(l, diff);
    var p := CloseWindow(l.window, diff).pending;
    ClosedTotals(p);
    AppendTotals(l.written, Closed(p));
  }

  lemma {:induction false} RunBalances(l: Ledger, events: seq<Event>, m: Ledger, diff: Differ)
    requires IsDiffer(diff) && Balanced(l) && Runs(l, events, m, diff)
    ensures Balanced(m) && m.hydrated == l.hydrated
    decreases |events|
  {
    if events == [] {
    } else {
      if events[0].Edit? {
        EditBalances(l, events[0], diff);
      } else {
        CheckpointBalances(l, diff);
      }
      RunBalances(Next(l, events[0], diff), events[1..], m, diff);
    }
  }

  /** Over any run of edits by any authors, the lines added less the lines removed, in the
      rows written and the counts pending, are the growth of the text from hydration to the
      last close of a window; after a checkpoint that closes it, to this moment. */
  lemma AttributionTelescopes(text: string, events: seq<Event>, l: Ledger, diff: Differ)
    requires IsDiffer(diff) && Runs(Hydrated(text), events, l, diff)
    ensures Added(l.written + l.window.pending) - Removed(l.written + l.window.pending)
            == Lines(l.closed) - Lines(text)
    ensures l.window.authors == [] ==> l.closed == l.window.text
  {
    RunBalances(Hydrated(text), events, l, diff);
    AppendTotals(l.written, l.window.pending);
  }

  // --- as the room does it --------------------------------------------------------

  class AttributedRoom {
    const diff: Differ
    var text: string
    var windowText: Option<string>
    var authors: Weights
    var started: int
    var lastEdit: int
    var lastAuthor: Option<UserId>
    var pending: Counts

    ghost function State(): Window
      reads this
    {
      Window(text, windowText, authors, started, lastEdit, lastAuthor, pending)
    }

    constructor (text: string, diff: Differ)
      ensures State() == Hydrated(text).window && this.diff == diff
    {
      this.text, this.diff := text, diff;
      windowText, authors, started, lastEdit, lastAuthor, pending := None, [], 0, 0, None, [];
    }

    method ResetWindow()
      modifies this
      ensures State() == Reset(old(State()))
    {
      windowText, authors, lastAuthor := None, [], None;
    }

    /** `split_stats`. */
    static method Split(authors: Weights, added: nat, removed: nat) returns (shares: Counts)
      ensures shares == SplitStats(authors, Stats(added, removed))
    {
      if authors == [] {
        return [];
      }
      if |authors| == 1 {
        return [(authors[0].0, Stats(added, removed))];
      }
      var a := LargestRemainder(WeightsOf(authors), added);
      var r := LargestRemainder(WeightsOf(authors), removed);
      shares := Zip(authors, a[..], r[..]);
    }

    method Close()
      requires IsDiffer(diff)
      modifies this
      ensures State() == CloseWindow(old(State()), diff)
    {
      if authors != [] {
        var added, removed := LineStats(if windowText.Some? then windowText.value else "", text, diff);
        var shares := Split(authors, added, removed);
        ghost var before := pending;
        for i := 0 to |shares|
          invariant AddAll(pending, shares[i..]) == AddAll(before, shares)
          invariant State() == old(State()).(pending := pending)
        {
          assert shares[i..][0] == shares[i] && shares[i..][1..] == shares[i + 1..];
          pending := AddCounts(pending, shares[i].0, shares[i].1);
        }
        assert shares[|shares|..] == [];
      }
      ResetWindow();
    }

    /** `apply_edit`: the document now reads `after`, and `changed` characters went in or out. */
    method Apply(user: UserId, after: string, changed: nat, now: int)
      requires IsDiffer(diff)
      modifies this
      ensures State() == ApplyEdit(old(State()), user, after, changed, now, diff)
    {
      if authors != [] && lastAuthor != Some(user) && now - lastEdit >= AUTHOR_SWITCH_MS {
        Close();
      }
      if authors == [] {
        windowText := Some(text);
      }
      text := after;
      if changed == 0 {
        return;
      }
      if authors == [] {
        started := now;
      }
      authors := AddWeight(authors, user, changed);
      lastEdit, lastAuthor := now, Some(user);
    }

    method TakePending() returns (taken: Counts)
      modifies this`pending
      ensures taken == Closed(old(pending)) && pending == []
    {
      taken := [];
      for i := 0 to |pending|
        invariant pending == old(pending)
        invariant taken + Closed(pending[i..]) == Closed(pending)
      {
        assert pending[i..][0] == pending[i] && pending[i..][1..] == pending[i + 1..];
        if NonZero(pending[i]) {
          taken := taken + [pending[i]];
        }
      }
      assert pending[|pending|..] == [];
      pending := [];
    }
  }
}
