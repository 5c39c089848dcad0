/**
 The dead-letter queue and the loop that retries its entries.

 The retry loop walks over a snapshot while it removes from the live queue. The index it
 removes at is `i - failure_count`, which is the number of successes so far; the entry it
 has just handled stands at `i - success_count`.
 */
module DeadLetter {
  import opened Common

  /** Entries are known by identity. */
  type Entry = nat

  function Removed(q: seq<Entry>, index: int): seq<Entry> {
    if 0 <= index < |q| then q[..index] + q[index + 1..] else q
  }

  /** `messages[:limit]`, where 0 and None both mean everything and a negative limit counts from the end. */
  function Taken(q: seq<Entry>, limit: Option<int>): (r: seq<Entry>)
    ensures r <= q
  {
    match limit
    case None => q
    case Some(k) =>
      if k == 0 then q
      else if k > 0 then q[..Min(k, |q|)]
      else q[..Max(0, |q| + k)]
  }

  class DeadLetterQueue {
    var messages: seq<Entry>

    constructor ()
      ensures messages == []
    {
      messages := [];
    }

    method Add(entries: seq<Entry>)
      modifies this
      ensures messages == old(messages) + entries
    {
      messages := messages + entries;
    }

    method GetMessages(limit: Option<int>) returns (r: seq<Entry>)
      ensures r == Taken(messages, limit)
    {
      match limit
      case None => r := messages;
      case Some(k) =>
        if k == 0 {
          r := messages;
        } else if k > 0 {
          r := messages[..Min(k, |messages|)];
        } else {
          r := messages[..Max(0, |messages| + k)];
        }
    }

    method RemoveMessage(index: int)
      modifies this
      ensures messages == Removed(old(messages), index)
    {
      if 0 <= index < |messages| {
        messages := messages[..index] + messages[index + 1..];
      }
    }
  }

  function Count(ok: seq<bool>, b: bool): (n: nat)
    ensures n <= |ok|
  {
    if ok == [] then 0 else Count(ok[..|ok| - 1], b) + if ok[|ok| - 1] == b then 1 else 0
  }

  /** The index the code removes at, `i - failure_count`. */
  function RemovalIndex(ok: seq<bool>): int {
    |ok| - Count(ok, false)
  }

  /**
   A retry of the front entries of `q`: `ok[i]` says whether the processor accepted the
   `i`-th, `arrivals[i]` what others appended to the queue in the meantime.
   */
  datatype Retry = Retry(q: seq<Entry>, ok: seq<bool>, arrivals: seq<seq<Entry>>) {
    ghost predicate Valid() {
      |ok| == |arrivals| <= |q|
    }

    /** The queue after the first `k` entries have been handled. */
    function After(k: nat): seq<Entry>
      requires k <= |ok| && |ok| == |arrivals|
    {
      if k == 0 then q
      else
        var now := After(k - 1) + arrivals[k - 1];
        if ok[k - 1] then Removed(now, RemovalIndex(ok[..k - 1])) else now
    }

    /** The entries among the first `k` whose retry failed, in order. */
    function Kept(k: nat): seq<Entry>
      requires k <= |ok| && k <= |q|
    {
      if k == 0 then [] else if ok[k - 1] then Kept(k - 1) else Kept(k - 1) + [q[k - 1]]
    }

    function Arrived(k: nat): seq<Entry>
      requires k <= |arrivals|
    {
      if k == 0 then [] else Arrived(k - 1) + arrivals[k - 1]
    }

    /** What the loop is for: the failed entries, those not reached yet, then the newcomers. */
    function Expected(k: nat): seq<Entry>
      requires k <= |ok| && k <= |q| && k <= |arrivals|
    {
      Kept(k) + q[k..] + Arrived(k)
    }
  }

  method RetryDlqMessages(dlq: DeadLetterQueue, limit: Option<int>, ok: seq<bool>, arrivals: seq<seq<Entry>>)
    returns (attempted: nat, successful: nat, failed: nat)
    requires |ok| == |arrivals| == |Taken(dlq.messages, limit)|
    modifies dlq
    ensures dlq.messages == Retry(old(dlq.messages), ok, arrivals).After(|ok|)
    ensures attempted == |ok| && successful == Count(ok, true) && failed == Count(ok, false)
  {
    ghost var r := Retry(dlq.messages, ok, arrivals);
    var messages := dlq.GetMessages(limit);
    successful, failed := 0, 0;
    for i := 0 to |messages|
      invariant successful == Count(ok[..i], true) && failed == Count(ok[..i], false)
      invariant dlq.messages == r.After(i)
    {
      assert ok[..i + 1][..i] == ok[..i];
      dlq.Add(arrivals[i]);
      if ok[i] {
        dlq.RemoveMessage(i - failed);
        successful := successful + 1;
      } else {
        failed := failed + 1;
      }
    }
    assert ok[..|ok|] == ok;
    attempted := |messages|;
  }

  /** The loop with the offset its purpose needs. */
  method RetryAsMeant(dlq: DeadLetterQueue, limit: Option<int>, ok: seq<bool>, arrivals: seq<seq<Entry>>)
    requires |ok| == |arrivals| == |Taken(dlq.messages, limit)|
    modifies dlq
    ensures dlq.messages == Retry(old(dlq.messages), ok, arrivals).Expected(|ok|)
  {
    hide Retry.Expected, Removed;
    ghost var r := Retry(dlq.messages, ok, arrivals);
    ExpectedStart(r);
    var messages := dlq.GetMessages(limit);
    var successful := 0;
    for i := 0 to |messages|
      invariant successful == Count(ok[..i], true)
      invariant dlq.messages == r.Expected(i)
    {
      assert ok[..i + 1][..i] == ok[..i];
      ExpectedStep(r, i);
      dlq.Add(arrivals[i]);
      if ok[i] {
        dlq.RemoveMessage(i - successful);
        successful := successful + 1;
      }
    }
  }

  // ----- bookkeeping -----

  lemma {:induction false} ExpectedStart(r: Retry)
    ensures r.Expected(0) == r.q
  {
  }

  lemma {:induction false} Counts(ok: seq<bool>)
    ensures Count(ok, true) + Count(ok, false) == |ok|
  {
    if ok != [] {
      Counts(ok[..|ok| - 1]);
    }
  }

  lemma {:induction false} CountGrows(ok: seq<bool>, b: bool, i: nat, k: nat)
    requires i <= k <= |ok|
    ensures Count(ok[..i], b) <= Count(ok[..k], b)
  {
    if i < k {
      CountGrows(ok, b, i, k - 1);
      assert ok[..k][..k - 1] == ok[..k - 1];
    }
  }

  lemma {:induction false} KeptLength(r: Retry, k: nat)
    requires r.Valid() && k <= |r.ok|
    ensures |r.Kept(k)| == Count(r.ok[..k], false)
  {
    if k > 0 {
      KeptLength(r, k - 1);
      assert r.ok[..k][..k - 1] == r.ok[..k - 1];
    }
  }

  /** The entry to handle next stands right behind the failed ones. */
  lemma {:induction false} ExpectedSplit(r: Retry, k: nat)
    requires r.Valid() && k < |r.ok|
    ensures var rest := r.q[k + 1..] + r.Arrived(k + 1);
            && r.Expected(k) + r.arrivals[k] == r.Kept(k) + [r.q[k]] + rest
            && r.Expected(k + 1) == r.Kept(k + 1) + rest
  {
    hide Retry.Kept;
    assert r.q[k..] == [r.q[k]] + r.q[k + 1..];
  }

  lemma {:induction false} RemovedMiddle(kept: seq<Entry>, x: Entry, rest: seq<Entry>)
    ensures var s := kept + [x] + rest;
            s[|kept|] == x && s[..|kept|] == kept && Removed(s, |kept|) == kept + rest
  {
  }

  lemma {:induction false} ExpectedStep(r: Retry, k: nat)
    requires r.Valid() && k < |r.ok|
    ensures var now := r.Expected(k) + r.arrivals[k];
            var f := Count(r.ok[..k], false);
            && f == k - Count(r.ok[..k], true)
            && f < |now| && now[f] == r.q[k] && now[..f] == r.Kept(k)
            && r.Expected(k + 1) == if r.ok[k] then Removed(now, f) else now
  {
    KeptLength(r, k);
    Counts(r.ok[..k]);
    ExpectedSplit(r, k);
    RemovedMiddle(r.Kept(k), r.q[k], r.q[k + 1..] + r.Arrived(k + 1));
    hide Retry.Expected, Removed;
  }

  /** Every success happens when as many retries have failed as have succeeded. */
  predicate Balanced(ok: seq<bool>) {
    forall i :: 0 <= i < |ok| ==> BalancedAt(ok, i)
  }

  predicate BalancedAt(ok: seq<bool>, i: nat)
    requires i < |ok|
  {
    ok[i] ==> Count(ok[..i], true) == Count(ok[..i], false)
  }

  lemma {:induction false} WrittenWhileBalanced(r: Retry, k: nat)
    requires r.Valid() && k <= |r.ok|
    requires forall i :: 0 <= i < k ==> BalancedAt(r.ok, i)
    ensures r.After(k) == r.Expected(k)
  {
    hide Removed, Retry.Expected, Balanced;
    if k == 0 {
      ExpectedStart(r);
    } else {
      WrittenWhileBalanced(r, k - 1);
      ExpectedStep(r, k - 1);
      assert BalancedAt(r.ok, k - 1);
    }
  }

  // ----- what goes wrong otherwise -----

  predicate Distinct(s: seq<Entry>) {
    forall i, j :: 0 <= i < j < |s| ==> s[i] != s[j]
  }

  /** The first success that is not balanced, if there is one. */
  lemma {:induction false} FirstUnbalanced(ok: seq<bool>, k: nat) returns (i: nat)
    requires k <= |ok|
    requires exists j :: 0 <= j < k && !BalancedAt(ok, j)
    ensures i < k && !BalancedAt(ok, i) && forall j :: 0 <= j < i ==> BalancedAt(ok, j)
  {
    if exists j :: 0 <= j < k - 1 && !BalancedAt(ok, j) {
      i := FirstUnbalanced(ok, k - 1);
    } else {
      i := k - 1;
    }
  }

  lemma {:induction false} RemovedBehind(q: seq<Entry>, f: nat, index: nat)
    requires f < |q| && f < index
    ensures f < |Removed(q, index)| && Removed(q, index)[f] == q[f]
  {
  }

  lemma {:induction false} RemovalIndexIs(ok: seq<bool>)
    ensures RemovalIndex(ok) == Count(ok, true)
  {
    Counts(ok);
  }

  /** An entry in front of every later removal stays where it is. */
  lemma {:induction false} StaysAt(r: Retry, i: nat, k: nat, f: nat, x: Entry)
    requires r.Valid() && i <= k <= |r.ok| && f < Count(r.ok[..i], true)
    requires f < |r.After(i)| && r.After(i)[f] == x
    ensures f < |r.After(k)| && r.After(k)[f] == x
  {
    hide Removed, RemovalIndex;
    if i < k {
      RemovalIndexIs(r.ok[..k - 1]);
      StaysAt(r, i, k - 1, f, x);
      CountGrows(r.ok, true, i, k - 1);
      RemovedBehind(r.After(k - 1) + r.arrivals[k - 1], f, Count(r.ok[..k - 1], true));
    }
  }

  /** An entry that has left, and does not arrive again, stays away. */
  lemma {:induction false} StaysAway(r: Retry, i: nat, k: nat, x: Entry)
    requires r.Valid() && i <= k <= |r.ok|
    requires x !in r.After(i) && x !in r.Arrived(k)
    ensures x !in r.After(k)
  {
    if i < k {
      StaysAway(r, i, k - 1, x);
    }
  }

  lemma {:induction false} KeptMember(r: Retry, j: nat, k: nat)
    requires r.Valid() && j < k <= |r.ok|
    requires Distinct(r.q)
    ensures r.q[j] in r.Kept(k) <==> !r.ok[j]
  {
    hide Distinct;
    if j < k - 1 {
      KeptMember(r, j, k - 1);
      assert r.q[j] != r.q[k - 1] by {
        DistinctAt(r.q, j, k - 1);
      }
    } else {
      KeptBelow(r, j, k - 1);
    }
  }

  lemma {:induction false} DistinctAt(s: seq<Entry>, i: nat, j: nat)
    requires Distinct(s) && i < j < |s|
    ensures s[i] != s[j]
  {
  }

  lemma {:induction false} KeptBelow(r: Retry, k: nat, j: nat)
    requires r.Valid() && j <= k <= |r.ok| && k < |r.q| && Distinct(r.q)
    ensures r.q[k] !in r.Kept(j)
  {
    if j > 0 {
      KeptBelow(r, k, j - 1);
      DistinctAt(r.q, j - 1, k);
    }
  }

  /** All entries that ever appear are different. */
  ghost predicate AllDistinct(r: Retry)
    requires r.Valid()
  {
    Distinct(r.q) && (forall x :: x in r.q ==> x !in r.Arrived(|r.ok|))
  }

  lemma {:induction false} ArrivedGrows(r: Retry, i: nat, k: nat, x: Entry)
    requires r.Valid() && i <= k <= |r.ok| && x !in r.Arrived(k)
    ensures x !in r.Arrived(i)
  {
    if i < k {
      ArrivedGrows(r, i, k - 1, x);
    }
  }

  /** More failures than successes: the success removes an entry that had failed. */
  lemma {:induction false} LosesFailed(r: Retry, i: nat)
    requires r.Valid() && AllDistinct(r) && i < |r.ok| && r.ok[i]
    requires Count(r.ok[..i], true) < Count(r.ok[..i], false)
    requires r.After(i) == r.Expected(i)
    ensures r.After(|r.ok|) != r.Expected(|r.ok|)
  {
    hide Removed, AllDistinct;
    KeptLength(r, i);
    Counts(r.ok[..i]);
    var s := Count(r.ok[..i], true);
    var j := KeptFrom(r, i, s);
    NowDistinct(r, i, s, j);
    assert r.After(i + 1) == Removed(r.Expected(i) + r.arrivals[i], s);
    StaysAway(r, i + 1, |r.ok|, r.q[j]);
    FailedExpected(r, j);
  }

  lemma {:induction false} FailedExpected(r: Retry, j: nat)
    requires r.Valid() && AllDistinct(r) && j < |r.ok| && !r.ok[j]
    ensures r.q[j] in r.Expected(|r.ok|)
  {
    KeptMember(r, j, |r.ok|);
  }

  lemma {:induction false} KeptFrom(r: Retry, k: nat, s: nat) returns (j: nat)
    requires r.Valid() && k <= |r.ok| && s < |r.Kept(k)|
    ensures j < k && !r.ok[j] && r.Kept(k)[s] == r.q[j]
  {
    if r.ok[k - 1] || s < |r.Kept(k - 1)| {
      j := KeptFrom(r, k - 1, s);
    } else {
      j := k - 1;
    }
  }

  lemma {:induction false} KeptOnce(r: Retry, k: nat, s: nat, t: nat)
    requires r.Valid() && k <= |r.ok| && Distinct(r.q) && s < t < |r.Kept(k)|
    ensures r.Kept(k)[s] != r.Kept(k)[t]
  {
    if r.ok[k - 1] || t < |r.Kept(k - 1)| {
      KeptOnce(r, k - 1, s, t);
    } else {
      var j := KeptFrom(r, k - 1, s);
      DistinctAt(r.q, j, k - 1);
    }
  }

  lemma {:induction false} NowDistinct(r: Retry, i: nat, s: nat, j: nat)
    requires r.Valid() && AllDistinct(r) && i < |r.ok| && j < i
    requires s < |r.Kept(i)| && r.Kept(i)[s] == r.q[j]
    ensures r.q[j] !in Removed(r.Expected(i) + r.arrivals[i], s)
    ensures r.q[j] !in r.Arrived(|r.ok|)
  {
    hide Distinct, Removed;
    var x, kept := r.q[j], r.Kept(i);
    ArrivedGrows(r, i + 1, |r.ok|, x);
    var rest := r.q[i..] + (r.Arrived(i) + r.arrivals[i]);
    assert r.Expected(i) + r.arrivals[i] == kept + rest;
    RemovedWithin(kept, rest, s);
    forall t | 0 <= t < |kept| && t != s ensures kept[t] != x {
      KeptOnce(r, i, Min(s, t), Max(s, t));
    }
    forall t | i <= t < |r.q| ensures r.q[t] != x {
      DistinctAt(r.q, j, t);
    }
    assert x !in r.q[i..] && x !in kept[..s] && x !in kept[s + 1..];
  }

  lemma {:induction false} RemovedWithin(kept: seq<Entry>, rest: seq<Entry>, s: nat)
    requires s < |kept|
    ensures Removed(kept + rest, s) == kept[..s] + kept[s + 1..] + rest
  {
  }

  /** More successes than failures: the entry just handled stays. */
  lemma {:induction false} KeepsHandled(r: Retry, i: nat)
    requires r.Valid() && AllDistinct(r) && i < |r.ok| && r.ok[i]
    requires Count(r.ok[..i], true) > Count(r.ok[..i], false)
    requires r.After(i) == r.Expected(i)
    ensures r.After(|r.ok|) != r.Expected(|r.ok|)
  {
    hide Removed, Retry.Expected, AllDistinct, RemovalIndex;
    ExpectedStep(r, i);
    RemovalIndexIs(r.ok[..i]);
    var f := Count(r.ok[..i], false);
    RemovedBehind(r.Expected(i) + r.arrivals[i], f, Count(r.ok[..i], true));
    CountGrows(r.ok, true, i, i + 1);
    assert r.After(i + 1)[f] == r.q[i];
    StaysAt(r, i + 1, |r.ok|, f, r.q[i]);
    HandledNotExpected(r, i);
  }

  lemma {:induction false} HandledNotExpected(r: Retry, i: nat)
    requires r.Valid() && AllDistinct(r) && i < |r.ok| && r.ok[i]
    ensures r.q[i] !in r.Expected(|r.ok|)
  {
    var x, n := r.q[i], |r.ok|;
    KeptMember(r, i, n);
    forall t | n <= t < |r.q| ensures r.q[t] != x {
      DistinctAt(r.q, i, t);
    }
    assert x !in r.q[n..];
  }

  /**
   The loop as written leaves what it is meant to leave exactly when every success finds as
   many failures as successes before it; two successes in a row are already too many.
   */
  lemma {:induction false} WrittenIffBalanced(r: Retry)
    requires r.Valid() && AllDistinct(r)
    ensures r.After(|r.ok|) == r.Expected(|r.ok|) <==> Balanced(r.ok)
  {
    var n := |r.ok|;
    if Balanced(r.ok) {
      WrittenWhileBalanced(r, n);
    } else {
      var i := FirstUnbalanced(r.ok, n);
      WrittenWhileBalanced(r, i);
      if Count(r.ok[..i], true) < Count(r.ok[..i], false) {
        LosesFailed(r, i);
      } else {
        KeepsHandled(r, i);
      }
    }
  }

  /** Two entries, both retried with success: the second one is left behind. */
  lemma {:induction false} TwoSuccesses(a: Entry, b: Entry)
    ensures Retry([a, b], [true, true], [[], []]).After(2) == [b]
    ensures Retry([a, b], [true, true], [[], []]).Expected(2) == []
  {
    var r := Retry([a, b], [true, true], [[], []]);
    assert r.ok[..0] == [] && r.ok[..1] == [true] && [true][..0] == [];
    assert RemovalIndex([]) == 0 && RemovalIndex([true]) == 1;
    assert r.After(0) + r.arrivals[0] == [a, b];
    assert r.After(1) == [b] && r.After(1) + r.arrivals[1] == [b];
    assert r.Kept(1) == r.Kept(0) == [] && r.Kept(2) == [];
    assert r.Arrived(1) == r.Arrived(0) + r.arrivals[0] == [];
    assert r.Arrived(2) == r.Arrived(1) + r.arrivals[1] == [];
  }

  // ----- which entries a retry works on -----

  /**
   An entry is retried, at its place, exactly if there is no limit or a zero one, or the limit
   is positive and fewer entries stand before it, or the limit is negative and more entries
   than its size are left from it on.
   */
  lemma {:induction false} TakenIff(q: seq<Entry>, limit: Option<int>, i: nat)
    requires i < |q|
    ensures i < |Taken(q, limit)| <==>
              match limit
              case None => true
              case Some(k) => k == 0 || (k > 0 && i < k) || (k < 0 && |q| - i > -k)
    ensures i < |Taken(q, limit)| ==> Taken(q, limit)[i] == q[i]
  {
    assert Taken(q, limit) <= q;
  }
}
