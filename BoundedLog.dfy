/**
 * The newest-first, capped log that all three trackers keep:
 * `[entry, ...prev.slice(0, cap - 1)]`.
 */
module BoundedLog {

  function Min(a: int, b: int): int
  {
    if a <= b then a else b
  }

  /** `log.slice(0, n)` for a non-negative `n`: the first `n` entries, or all of them if there are fewer. */
  function Take<T>(log: seq<T>, n: nat): (r: seq<T>)
    ensures |r| == Min(|log|, n)
    ensures r <= log
  {
    log[..Min(|log|, n)]
  }

  /**
   * Puts `entry` at the head of `log` and keeps at most `cap` entries: the older entries
   * follow in their old order, and only the oldest ones beyond the cap are dropped.
   */
  function Prepend<T>(entry: T, log: seq<T>, cap: nat): (r: seq<T>)
    requires cap >= 1
    ensures |r| == Min(|log| + 1, cap)
    ensures r[0] == entry
    ensures forall i :: 1 <= i < |r| ==> r[i] == log[i - 1]
  {
    [entry] + Take(log, cap - 1)
  }

  /** The sequence in the opposite order. */
  function Reverse<T>(s: seq<T>): (r: seq<T>)
    ensures |r| == |s|
    ensures forall i :: 0 <= i < |s| ==> r[i] == s[|s| - 1 - i]
  {
    if s == [] then [] else Reverse(s[1..]) + [s[0]]
  }

  /** Prepends `entries` one after another, `entries[0]` first. */
  function PrependAll<T>(entries: seq<T>, log: seq<T>, cap: nat): seq<T>
    requires cap >= 1
    decreases |entries|
  {
    if entries == [] then log else PrependAll(entries[1..], Prepend(entries[0], log, cap), cap)
  }

  /** Truncating after a prefix has been put in front changes nothing that a second truncation keeps. */
  lemma TakeAfterTake<T>(a: seq<T>, b: seq<T>, n: nat)
    ensures Take(a + Take(b, n), n) == Take(a + b, n)
  {
    var lhs, rhs := Take(a + Take(b, n), n), Take(a + b, n);
    assert |lhs| == |rhs|;
    forall i | 0 <= i < |lhs| ensures lhs[i] == rhs[i] {
      if i >= |a| {
        assert lhs[i] == Take(b, n)[i - |a|];
      }
    }
  }

  /**
   * After any number of insertions into a log within its cap, the log holds the `cap`
   * most recent entries of `entries` followed by the old log, newest first.
   */
  lemma {:induction false} PrependAllKeepsNewest<T>(entries: seq<T>, log: seq<T>, cap: nat)
    requires cap >= 1
    requires |log| <= cap
    ensures PrependAll(entries, log, cap) == Take(Reverse(entries) + log, cap)
  {
    if entries == [] {
      assert Reverse(entries) + log == log;
    } else {
      var e, rest := entries[0], entries[1..];
      PrependAllKeepsNewest(rest, Prepend(e, log, cap), cap);
      assert Prepend(e, log, cap) == Take([e] + log, cap);
      TakeAfterTake(Reverse(rest), [e] + log, cap);
      assert Reverse(entries) == Reverse(rest) + [e];
      assert Reverse(rest) + ([e] + log) == Reverse(entries) + log;
    }
  }

  /**
   * The bounded-log invariant: N insertions into an empty log leave min(N, cap) entries,
   * and the first of them is the one inserted last.
   */
  lemma InsertionsFromEmpty<T>(entries: seq<T>, cap: nat)
    requires cap >= 1
    ensures |PrependAll(entries, [], cap)| == Min(|entries|, cap)
    ensures entries != [] ==> PrependAll(entries, [], cap)[0] == entries[|entries| - 1]
  {
    PrependAllKeepsNewest(entries, [], cap);
    assert Reverse(entries) + [] == Reverse(entries);
  }
}
