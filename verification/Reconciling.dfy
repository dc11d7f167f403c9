/** Where the entries of a request stop matching a log. */
module Reconciling {
  import opened RaftTypes
  import opened RaftStep

  /** The log holds entry j of the request. */
  ghost predicate Holds(log: Log, pre: nat, es: seq<LogEntry>, j: nat)
    requires j < |es|
  {
    pre + j < |log| && log[pre + j].term == es[j].entry.term
  }

  lemma {:induction false} HeldBefore(log: Log, pre: nat, es: seq<LogEntry>, j: nat)
    requires j < FirstNew(log, pre, es)
    ensures Holds(log, pre, es, j)
    decreases j
  {
    if j > 0 {
      HeldBefore(log, pre + 1, es[1..], j - 1);
      assert es[1..][j - 1] == es[j];
    }
  }

  lemma {:induction false} NotHeldAt(log: Log, pre: nat, es: seq<LogEntry>)
    ensures var k := FirstNew(log, pre, es); k < |es| ==> !Holds(log, pre, es, k)
    decreases |es|
  {
    var k := FirstNew(log, pre, es);
    if k > 0 {
      NotHeldAt(log, pre + 1, es[1..]);
    }
  }

  /** The position of the first new entry is the only one with the held entries before it. */
  lemma {:induction false} FirstNewIs(log: Log, pre: nat, es: seq<LogEntry>, k: nat)
    requires k <= |es|
    requires forall j | 0 <= j < k :: Holds(log, pre, es, j)
    requires k < |es| ==> !Holds(log, pre, es, k)
    ensures FirstNew(log, pre, es) == k
    decreases k
  {
    if k > 0 {
      assert Holds(log, pre, es, 0);
      var rest, next := es[1..], pre + 1;
      forall j: nat | 0 <= j < k - 1
        ensures Holds(log, next, rest, j)
      {
        assert rest[j] == es[j + 1];
        assert Holds(log, pre, es, j + 1);
      }
      FirstNewIs(log, next, rest, k - 1);
    }
  }
}
