/** The single edit a restore makes: everything but the differing middle is kept. */
module RestoreEdit {
  import opened Wrappers

  // Replace text[start..end] by `insert`.
  datatype Edit = Edit(start: nat, end: nat, insert: string)

  predicate Fits(edit: Edit, text: string) {
    edit.start <= edit.end <= |text|
  }

  function Apply(text: string, edit: Edit): string
    requires Fits(edit, text)
  {
    text[..edit.start] + edit.insert + text[edit.end..]
  }

  // Characters of `text` the edit leaves alone: the ones cursors can stay on.
  function Kept(text: string, edit: Edit): int {
    edit.start + |text| - edit.end
  }

  // Where the scans stop: the common prefix ends, or one text does; then so for the suffix.
  predicate Scanned(before: string, after: string, start: nat, endOld: nat, endNew: nat) {
    && start <= endOld <= |before| && start <= endNew <= |after|
    && |before| - endOld == |after| - endNew
    && (start < |before| && start < |after| ==> before[start] != after[start])
    && (start < endOld && start < endNew ==> before[endOld - 1] != after[endNew - 1])
  }

  lemma SameOutside(before: string, after: string, edit: Edit)
    requires Fits(edit, before) && Apply(before, edit) == after
    ensures |after| == edit.start + |edit.insert| + |before| - edit.end
    ensures forall i :: 0 <= i < edit.start ==> before[i] == after[i]
    ensures forall i :: edit.end <= i < |before| ==> before[i] == after[i + |after| - |before|]
  {
    forall i | edit.end <= i < |before|
      ensures before[i] == after[i + |after| - |before|]
    {
      assert before[i] == before[edit.end..][i - edit.end];
    }
  }

  lemma KeepsNoMore(before: string, after: string, start: nat, endOld: nat, endNew: nat, edit: Edit)
    requires Scanned(before, after, start, endOld, endNew)
    requires Fits(edit, before) && Apply(before, edit) == after
    ensures Kept(before, edit) <= start + |before| - endOld
  {
    SameOutside(before, after, edit);
  }

  /** `text_edit_update`: no edit exactly when the texts are equal; otherwise one that produces
      the new text, and no single contiguous replacement keeps more characters. */
  method TextEdit(before: string, after: string) returns (edit: Option<Edit>)
    ensures edit.None? <==> before == after
    ensures edit.Some? ==> Fits(edit.value, before) && Apply(before, edit.value) == after
    ensures edit.Some? ==> forall e :: Fits(e, before) && Apply(before, e) == after ==>
                                         Kept(before, e) <= Kept(before, edit.value)
  {
    if before == after {
      return None;
    }
    var start := 0;
    var limit := if |before| <= |after| then |before| else |after|;
    while start < limit && before[start] == after[start]
      invariant start <= limit
      invariant before[..start] == after[..start]
    {
      start := start + 1;
    }
    var endOld, endNew := |before|, |after|;
    while endOld > start && endNew > start && before[endOld - 1] == after[endNew - 1]
      invariant start <= endOld <= |before| && start <= endNew <= |after|
      invariant |before| - endOld == |after| - endNew && before[endOld..] == after[endNew..]
    {
      endOld, endNew := endOld - 1, endNew - 1;
      assert before[endOld..] == [before[endOld]] + before[endOld + 1..];
      assert after[endNew..] == [after[endNew]] + after[endNew + 1..];
    }
    edit := Some(Edit(start, endOld, after[start..endNew]));
    assert after == after[..start] + after[start..endNew] + after[endNew..];
    forall e | Fits(e, before) && Apply(before, e) == after
      ensures Kept(before, e) <= Kept(before, edit.value)
    {
      KeepsNoMore(before, after, start, endOld, endNew, e);
    }
  }
}
