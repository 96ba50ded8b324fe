/** Splitting a batch by per-event verdicts into the events that were sent
    and the events that were not, in batch order. Each function is defined
    on the first `n` positions, which is how the loop of `send_events`
    builds its lists. */
module Partition {

  /** How many of the first `n` verdicts equal `want`. */
  function CountUpTo(flags: seq<bool>, want: bool, n: nat): (c: nat)
    requires n <= |flags|
    ensures c <= n
  {
    if n == 0 then 0 else CountUpTo(flags, want, n - 1) + (if flags[n - 1] == want then 1 else 0)
  }

  function Count(flags: seq<bool>, want: bool): nat {
    CountUpTo(flags, want, |flags|)
  }

  /** The first `n` events whose verdict is `want`, in batch order. */
  function SelectUpTo<T>(batch: seq<T>, flags: seq<bool>, want: bool, n: nat): (r: seq<T>)
    requires |flags| == |batch| && n <= |batch|
    ensures |r| == CountUpTo(flags, want, n)
  {
    if n == 0 then []
    else SelectUpTo(batch, flags, want, n - 1) + (if flags[n - 1] == want then [batch[n - 1]] else [])
  }

  /** The events whose verdict is `want`, in batch order. */
  function Select<T>(batch: seq<T>, flags: seq<bool>, want: bool): seq<T>
    requires |flags| == |batch|
  {
    SelectUpTo(batch, flags, want, |batch|)
  }

  /** Interleaves the first `n` positions again, taking from `yes` where the
      verdict is true and from `no` where it is false. */
  function MergeUpTo<T>(flags: seq<bool>, yes: seq<T>, no: seq<T>, n: nat): seq<T>
    requires n <= |flags|
    requires CountUpTo(flags, true, n) <= |yes| && CountUpTo(flags, false, n) <= |no|
  {
    if n == 0 then []
    else MergeUpTo(flags, yes, no, n - 1)
         + [if flags[n - 1] then yes[CountUpTo(flags, true, n) - 1] else no[CountUpTo(flags, false, n) - 1]]
  }

  function Merge<T>(flags: seq<bool>, yes: seq<T>, no: seq<T>): seq<T>
    requires |yes| == Count(flags, true) && |no| == Count(flags, false)
  {
    MergeUpTo(flags, yes, no, |flags|)
  }

  /** Every verdict is counted on exactly one side. */
  lemma {:induction false} CountSplit(flags: seq<bool>, n: nat)
    requires n <= |flags|
    ensures CountUpTo(flags, true, n) + CountUpTo(flags, false, n) == n
  {
    if n > 0 {
      CountSplit(flags, n - 1);
    }
  }

  /** One more position adds its event to the side its verdict names and
      leaves the other side as it was. */
  lemma SelectUpToStep<T>(batch: seq<T>, flags: seq<bool>, n: nat)
    requires |flags| == |batch| && n < |batch|
    ensures SelectUpTo(batch, flags, true, n + 1)
            == SelectUpTo(batch, flags, true, n) + (if flags[n] then [batch[n]] else [])
    ensures SelectUpTo(batch, flags, false, n + 1)
            == SelectUpTo(batch, flags, false, n) + (if flags[n] then [] else [batch[n]])
  {
  }

  /** Counting over more positions never counts fewer. */
  lemma {:induction false} CountMonotone(flags: seq<bool>, want: bool, n: nat, m: nat)
    requires n <= m <= |flags|
    ensures CountUpTo(flags, want, n) <= CountUpTo(flags, want, m)
  {
    if n < m {
      CountMonotone(flags, want, n, m - 1);
    }
  }

  /** A shorter selection is a prefix of a longer one. */
  lemma {:induction false} SelectUpToPrefix<T>(batch: seq<T>, flags: seq<bool>, want: bool, n: nat, m: nat)
    requires |flags| == |batch| && n <= m <= |batch|
    ensures CountUpTo(flags, want, n) <= CountUpTo(flags, want, m)
            && SelectUpTo(batch, flags, want, m)[..CountUpTo(flags, want, n)] == SelectUpTo(batch, flags, want, n)
  {
    CountMonotone(flags, want, n, m);
    if n < m {
      SelectUpToPrefix(batch, flags, want, n, m - 1);
      var shorter := SelectUpTo(batch, flags, want, m - 1);
      var tail := if flags[m - 1] == want then [batch[m - 1]] else [];
      assert (shorter + tail)[..CountUpTo(flags, want, n)] == shorter[..CountUpTo(flags, want, n)];
    }
  }

  /** The event at position `i` is on the side of its own verdict, at the
      place given by the number of verdicts of that kind up to it. */
  lemma SelectAt<T>(batch: seq<T>, flags: seq<bool>, i: nat)
    requires |flags| == |batch| && i < |batch|
    ensures 1 <= CountUpTo(flags, flags[i], i + 1) <= |Select(batch, flags, flags[i])|
            && Select(batch, flags, flags[i])[CountUpTo(flags, flags[i], i + 1) - 1] == batch[i]
  {
    SelectUpToPrefix(batch, flags, flags[i], i + 1, |batch|);
    var upTo := SelectUpTo(batch, flags, flags[i], i + 1);
    assert upTo[|upTo| - 1] == batch[i];
  }

  /** Each side of the split takes every event whose verdict is its kind. */
  lemma SelectContains<T>(batch: seq<T>, flags: seq<bool>, i: nat)
    requires |flags| == |batch| && i < |batch|
    ensures batch[i] in Select(batch, flags, flags[i])
  {
    SelectAt(batch, flags, i);
  }

  /** Every event on a side comes from a position with that verdict. */
  lemma {:induction false} SelectOrigin<T>(batch: seq<T>, flags: seq<bool>, want: bool, n: nat, x: T)
    requires |flags| == |batch| && n <= |batch| && x in SelectUpTo(batch, flags, want, n)
    ensures exists i :: 0 <= i < n && x == batch[i] && flags[i] == want
  {
    if x in SelectUpTo(batch, flags, want, n - 1) {
      SelectOrigin(batch, flags, want, n - 1, x);
    } else {
      assert x == batch[n - 1] && flags[n - 1] == want;
    }
  }

  /** The split is an order-preserving partition: merging the sent and the
      unsent events back along the verdicts gives the batch again. */
  lemma {:induction false} MergeSelectUpTo<T>(batch: seq<T>, flags: seq<bool>, n: nat)
    requires |flags| == |batch| && n <= |batch|
    ensures CountUpTo(flags, true, n) <= Count(flags, true) && CountUpTo(flags, false, n) <= Count(flags, false)
            && MergeUpTo(flags, Select(batch, flags, true), Select(batch, flags, false), n) == batch[..n]
  {
    CountMonotone(flags, true, n, |flags|);
    CountMonotone(flags, false, n, |flags|);
    if n > 0 {
      MergeSelectUpTo(batch, flags, n - 1);
      SelectAt(batch, flags, n - 1);
      assert batch[..n] == batch[..n - 1] + [batch[n - 1]];
    }
  }

  lemma MergeSelect<T>(batch: seq<T>, flags: seq<bool>)
    requires |flags| == |batch|
    ensures Merge(flags, Select(batch, flags, true), Select(batch, flags, false)) == batch
  {
    MergeSelectUpTo(batch, flags, |batch|);
  }

  /** The two sides together hold the events of the batch, each as often as
      it occurs there. */
  lemma {:induction false} SelectMultiset<T>(batch: seq<T>, flags: seq<bool>, n: nat)
    requires |flags| == |batch| && n <= |batch|
    ensures multiset(SelectUpTo(batch, flags, true, n)) + multiset(SelectUpTo(batch, flags, false, n))
            == multiset(batch[..n])
  {
    if n > 0 {
      SelectMultiset(batch, flags, n - 1);
      var x := batch[n - 1];
      assert batch[..n] == batch[..n - 1] + [x];
      SplitStep(SelectUpTo(batch, flags, true, n - 1), SelectUpTo(batch, flags, false, n - 1),
                SelectUpTo(batch, flags, true, n), SelectUpTo(batch, flags, false, n), x, flags[n - 1]);
    }
  }

  /** Sending one more item to either side adds it once to the two sides together. */
  lemma SplitStep<T>(yes: seq<T>, no: seq<T>, yes': seq<T>, no': seq<T>, x: T, toYes: bool)
    requires toYes ==> yes' == yes + [x] && no' == no
    requires !toYes ==> yes' == yes && no' == no + [x]
    ensures multiset(yes') + multiset(no') == multiset(yes) + multiset(no) + multiset{x}
  {
  }

  /** When every verdict is the same, one side is the whole batch and the
      other is empty. */
  lemma {:induction false} SelectUniform<T>(batch: seq<T>, flags: seq<bool>, verdict: bool, n: nat)
    requires |flags| == |batch| && n <= |batch|
    requires forall i :: 0 <= i < |flags| ==> flags[i] == verdict
    ensures SelectUpTo(batch, flags, verdict, n) == batch[..n]
    ensures SelectUpTo(batch, flags, !verdict, n) == []
  {
    if n > 0 {
      SelectUniform(batch, flags, verdict, n - 1);
      assert batch[..n] == batch[..n - 1] + [batch[n - 1]];
    }
  }
}
