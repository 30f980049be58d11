/** The map of tasks and its two counters, used by one thread at a time. What
    remains true when many threads use them is in module Completion. */
module TaskStats {
  import opened Completion
  import Lists

  lemma AllTrue(entries: map<Task, bool>)
    ensures |TrueEntries(entries)| <= |entries|
    ensures |TrueEntries(entries)| == |entries| <==> forall t :: t in entries ==> entries[t]
  {
    Lists.SubsetSize(TrueEntries(entries), entries.Keys);
    assert (forall t :: t in entries ==> entries[t]) ==> TrueEntries(entries) == entries.Keys;
    if |TrueEntries(entries)| == |entries| {
      SameSize(TrueEntries(entries), entries.Keys);
      assert forall t :: t in entries ==> t in TrueEntries(entries);
    }
  }

  class Stats {
    var entries: map<Task, bool>
    var total: nat
    var completed: nat

    /** The counters are the sizes of what they count. */
    ghost predicate Exact() reads this
    {
      total == |entries| && completed == |TrueEntries(entries)|
    }

    constructor ()
      ensures Exact() && entries == map[]
    {
      entries, total, completed := map[], 0, 0;
      new;
      assert TrueEntries(entries) == {};
    }

    /** Registering keeps the counters exact if and only if the id is new. */
    method RegisterTask(t: Task)
      modifies this
      ensures entries == old(entries)[t := false] && total == old(total) + 1 && completed == old(completed)
      ensures old(Exact()) ==> (Exact() <==> t !in old(entries))
    {
      ghost var was := entries;
      entries := entries[t := false];
      total := total + 1;
      assert t !in was ==> TrueEntries(entries) == TrueEntries(was) && entries.Keys == was.Keys + {t};
      assert t in was ==> entries.Keys == was.Keys;
    }

    /** A task is counted once however often it is marked, and an unknown one not
        at all. */
    method MarkCompleted(t: Task)
      modifies this
      ensures entries == (if t in old(entries) then old(entries)[t := true] else old(entries)) && total == old(total)
      ensures completed == old(completed) + if t in old(entries) && !old(entries)[t] then 1 else 0
      ensures old(Exact()) ==> Exact()
    {
      ghost var was := entries;
      if t in entries {
        if !entries[t] {
          entries := entries[t := true];
          completed := completed + 1;
          assert TrueEntries(entries) == TrueEntries(was) + {t} && entries.Keys == was.Keys;
        } else {
          assert was[t := true] == was;
        }
      }
    }

    method AllTasksCompleted() returns (all: bool)
      ensures all <==> completed == total && total > 0
      ensures Exact() ==> (all <==> entries != map[] && forall t :: t in entries ==> entries[t])
    {
      AllTrue(entries);
      all := completed == total && total > 0;
    }
  }
}
