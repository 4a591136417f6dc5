/**
 * A bounded double-ended queue used only by appending, as the detector's
 * `particle_history` (`deque(maxlen=100)`): once full, each append evicts
 * the oldest entry.
 */
module History {

  /** The last `n` elements of `s` (all of `s` when it is no longer). */
  function LastN<T>(s: seq<T>, n: nat): (r: seq<T>)
    ensures |r| == if |s| <= n then |s| else n
    ensures forall k :: 0 <= k < |r| ==> r[k] == s[|s| - |r| + k]
  {
    if |s| <= n then s else s[|s| - n..]
  }

  /**
   * The entries after appending each element of `xs` in turn to `entries`:
   * with a non-zero capacity, the last element appended is the newest entry.
   */
  function AppendAll<T>(entries: seq<T>, xs: seq<T>, maxLen: nat): (r: seq<T>)
    ensures 0 < maxLen && xs != [] ==> 0 < |r| && r[|r| - 1] == xs[|xs| - 1]
    decreases |xs|
  {
    if xs == [] then entries
    else AppendAll(LastN(entries + [xs[0]], maxLen), xs[1..], maxLen)
  }

  class BoundedDeque<T> {
    /** The capacity fixed at construction. */
    const maxLen: nat
    /** The entries, oldest first. */
    var items: seq<T>

    ghost predicate Valid()
      reads this
    {
      |items| <= maxLen
    }

    constructor (maxLen: nat)
      ensures Valid()
      ensures this.maxLen == maxLen && items == []
    {
      this.maxLen := maxLen;
      items := [];
    }

    /** Appends `x` on the right, first dropping the leftmost entry when full. */
    method Append(x: T)
      requires Valid()
      modifies this
      ensures Valid()
      ensures items == LastN(old(items) + [x], maxLen)
    {
      if maxLen == 0 {
        // a deque of capacity 0 discards every element
      } else if |items| == maxLen {
        items := items[1..] + [x];
      } else {
        items := items + [x];
      }
    }
  }

  /** Keeping the last n of a prefix and then the last n of the whole agrees with keeping the last n of the whole. */
  lemma LastNOfAppend<T>(s: seq<T>, t: seq<T>, n: nat)
    ensures LastN(LastN(s, n) + t, n) == LastN(s + t, n)
  {
    var a := LastN(LastN(s, n) + t, n);
    var b := LastN(s + t, n);
    assert |a| == |b|;
    forall k | 0 <= k < |a| ensures a[k] == b[k] {
      var prefix := LastN(s, n);
      var j := |prefix + t| - |a| + k;
      if j < |prefix| {
        assert (prefix + t)[j] == prefix[j];
      } else {
        assert (prefix + t)[j] == t[j - |prefix|];
      }
    }
  }

  /**
   * Any sequence of appends to a valid history leaves exactly the last
   * `maxLen` entries of everything appended, in append order.
   */
  lemma {:induction false} AppendAllKeepsLast<T>(entries: seq<T>, xs: seq<T>, maxLen: nat)
    requires |entries| <= maxLen
    ensures AppendAll(entries, xs, maxLen) == LastN(entries + xs, maxLen)
    decreases |xs|
  {
    if xs != [] {
      var next := LastN(entries + [xs[0]], maxLen);
      assert entries + [xs[0]] + xs[1..] == entries + xs;
      calc {
        AppendAll(entries, xs, maxLen);
        == AppendAll(next, xs[1..], maxLen);
        == { AppendAllKeepsLast(next, xs[1..], maxLen); }
        LastN(next + xs[1..], maxLen);
        == { LastNOfAppend(entries + [xs[0]], xs[1..], maxLen); }
        LastN(entries + [xs[0]] + xs[1..], maxLen);
        == LastN(entries + xs, maxLen);
      }
    } else {
      assert entries + xs == entries;
    }
  }

  /**
   * Starting empty, after maxLen + k appends the history holds exactly the
   * last maxLen elements appended, the first k having been evicted.
   */
  lemma HistoryAfterOverflow<T>(xs: seq<T>, maxLen: nat, k: nat)
    requires |xs| == maxLen + k
    ensures AppendAll([], xs, maxLen) == xs[k..]
    ensures |AppendAll([], xs, maxLen)| == maxLen
  {
    AppendAllKeepsLast([], xs, maxLen);
    assert [] + xs == xs;
  }

  /** Whatever is appended, the history never exceeds its capacity. */
  lemma HistoryBounded<T>(entries: seq<T>, xs: seq<T>, maxLen: nat)
    requires |entries| <= maxLen
    ensures |AppendAll(entries, xs, maxLen)| <= maxLen
  {
    AppendAllKeepsLast(entries, xs, maxLen);
  }
}
