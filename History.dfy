/**
 * The session history: the list of entered numbers shown beside the search
 * box. A number is appended the first time it is tracked and never again, the
 * list can be cleared, and it can be exported as one row per entry.
 */
module HistoryList {

  predicate NoDuplicates(s: seq<string>) {
    forall i, j :: 0 <= i < j < |s| ==> s[i] != s[j]
  }

  /** The list after `x` is offered to it: appended when absent, unchanged otherwise. */
  function AddIfAbsent(entries: seq<string>, x: string): (r: seq<string>)
    ensures x in r && entries <= r && |r| <= |entries| + 1
    ensures x in entries ==> r == entries
    ensures forall y :: y in r ==> y == x || y in entries
    ensures NoDuplicates(entries) ==> NoDuplicates(r)
  {
    if x in entries then entries else entries + [x]
  }

  /** The history after each of `inputs` has been tracked in turn, starting empty. */
  function Recorded(inputs: seq<string>): seq<string> {
    if inputs == [] then []
    else AddIfAbsent(Recorded(inputs[..|inputs| - 1]), inputs[|inputs| - 1])
  }

  /** The history holds every tracked number exactly once, and nothing else. */
  lemma {:induction false} RecordedIsDeduplicated(inputs: seq<string>)
    ensures NoDuplicates(Recorded(inputs))
    ensures forall x :: x in Recorded(inputs) <==> x in inputs
  {
    if inputs != [] {
      var init := inputs[..|inputs| - 1];
      RecordedIsDeduplicated(init);
      assert inputs == init + [inputs[|inputs| - 1]];
    }
  }

  /** Later numbers never move or remove earlier entries: the order is that of first entry. */
  lemma {:induction false} RecordedPrefix(inputs: seq<string>, more: seq<string>)
    ensures Recorded(inputs) <= Recorded(inputs + more)
  {
    if more != [] {
      var init := more[..|more| - 1];
      RecordedPrefix(inputs, init);
      assert (inputs + more)[..|inputs + more| - 1] == inputs + init;
    } else {
      assert inputs + more == inputs;
    }
  }

  /** Tracking the same number twice in a row leaves one entry for it. */
  lemma {:induction false} RecordedRepeat(inputs: seq<string>, x: string)
    ensures Recorded(inputs + [x, x]) == Recorded(inputs + [x])
  {
    assert (inputs + [x, x])[..|inputs| + 1] == inputs + [x];
    assert (inputs + [x])[..|inputs|] == inputs;
  }

  /** The history list widget. */
  class History {
    var entries: seq<string>

    ghost predicate Valid()
      reads this
    {
      NoDuplicates(entries)
    }

    /** The empty list the window starts with. */
    constructor ()
      ensures Valid() && entries == []
    {
      entries := [];
    }

    /** Whether `x` is already listed, by a scan of the entries. */
    method Contains(x: string) returns (found: bool)
      ensures found <==> x in entries
    {
      found := false;
      var i := 0;
      while i < |entries| && !found
        invariant 0 <= i <= |entries|
        invariant found <==> x in entries[..i]
      {
        found := entries[i] == x;
        i := i + 1;
      }
    }

    /** Appends `x` unless it is already listed. */
    method Add(x: string)
      requires Valid()
      modifies this
      ensures Valid()
      ensures entries == AddIfAbsent(old(entries), x)
    {
      var present := Contains(x);
      if !present {
        entries := entries + [x];
      }
    }

    /** Deletes every entry. */
    method Clear()
      modifies this
      ensures Valid() && entries == []
    {
      entries := [];
    }

    /** The rows written to the export file: one row per entry, in list order, holding that entry alone. */
    method Export() returns (rows: seq<seq<string>>)
      ensures |rows| == |entries|
      ensures forall i :: 0 <= i < |rows| ==> rows[i] == [entries[i]]
    {
      rows := [];
      for i := 0 to |entries|
        invariant |rows| == i
        invariant forall k :: 0 <= k < i ==> rows[k] == [entries[k]]
      {
        rows := rows + [[entries[i]]];
      }
    }
  }
}
