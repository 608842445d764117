/** The bounded message history of fog_handler.py (`message_history`, lines 23 and 134-143). */
module History {

  /** Entries kept before the oldest is evicted (line 142). */
  const HistoryCap: nat := 100

  /** Python's `h[-n:]` for `n > 0` (`h[-0:]` would be all of `h`): the last `n` entries, or all of them when there are fewer. */
  function Last<T>(h: seq<T>, n: nat): (r: seq<T>)
    requires n > 0
    ensures |r| == if |h| < n then |h| else n
    ensures r == h[|h| - |r|..]
  {
    if |h| <= n then h else h[|h| - n..]
  }

  /** Lines 134-143: append, then pop the front once if the history exceeds the cap. */
  function Append<T>(h: seq<T>, x: T): (r: seq<T>)
    ensures |h| <= HistoryCap ==> |r| <= HistoryCap
    ensures |r| > 0 && r[|r| - 1] == x
    ensures |h| < HistoryCap ==> r[..|r| - 1] == h
    ensures |h| >= HistoryCap ==> r[..|r| - 1] == h[1..]
  {
    var grown := h + [x];
    if |grown| > HistoryCap then
      assert grown[1..] == h[1..] + [x];
      grown[1..]
    else
      grown
  }

  /** Taking the last `n` twice around an append is the same as taking them once. */
  lemma {:induction false} LastAppend<T>(h: seq<T>, x: T, n: nat)
    requires n > 0
    ensures Last(Last(h, n) + [x], n) == Last(h + [x], n)
  {
    var k := Last(h, n);
    if |h| > n {
      assert h + [x] == h[..|h| - n] + (k + [x]);
    }
  }

  /** Within the cap, one append is exactly "keep the last HistoryCap of everything seen". */
  lemma {:induction false} AppendIsWindow<T>(h: seq<T>, x: T)
    requires |h| <= HistoryCap
    ensures Append(h, x) == Last(h + [x], HistoryCap)
  {
  }

  /** A shorter window of a window is the shorter window of the whole. */
  lemma LastOfLast<T>(h: seq<T>, m: nat, n: nat)
    requires 0 < m <= n
    ensures Last(Last(h, n), m) == Last(h, m)
  {
  }
}
