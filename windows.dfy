/**
 * Chunk-window arithmetic of the analysis loop: how many windows a message
 * list has, which slice window k is, and where a run starts and stops.
 * Python's floor division coincides with Dafny's `/` for a positive divisor,
 * and Python's slice `s[a:b]` is modelled with its negative-index rules.
 */
module Windows {
  import opened Wrappers

  function Min(a: int, b: int): int { if a <= b then a else b }

  /** `total_chunks = (len(messages) + chunk_size - 1) // chunk_size`. */
  function TotalChunks(n: nat, cs: int): (t: int)
    requires cs > 0
    ensures t >= 0
    ensures n == 0 <==> t == 0
    ensures 0 < n <= cs ==> t == 1
  {
    var q, r := (n + cs - 1) / cs, (n + cs - 1) % cs;
    assert n + cs - 1 == q * cs + r && 0 <= r < cs;
    assert q <= 0 ==> q * cs <= 0;
    assert q >= 2 ==> q * cs >= 2 * cs;
    q
  }

  /** A Python slice bound: negative bounds count from the end, and all bounds are clamped to 0..n. */
  function SliceBound(i: int, n: nat): (b: nat)
    ensures b <= n
    ensures 0 <= i <= n ==> b == i
    ensures i > n ==> b == n
    ensures i < 0 ==> b == if i + n < 0 then 0 else i + n
  {
    if i < 0 then (if i + n < 0 then 0 else i + n)
    else if i > n then n
    else i
  }

  /** Python's `s[a:b]`. */
  function PySlice<T>(s: seq<T>, a: int, b: int): (r: seq<T>)
    ensures |r| <= |s|
    ensures a <= b ==> |r| <= b - a
    ensures 0 <= a <= b ==> r == s[Min(a, |s|)..Min(b, |s|)]
  {
    var lo := SliceBound(a, |s|);
    var hi := SliceBound(b, |s|);
    if lo <= hi then s[lo..hi] else []
  }

  /** Window k of the loop: `messages[i:i + chunk_size]` with `i = k * chunk_size`. */
  function Window<T>(messages: seq<T>, cs: int, k: int): (w: seq<T>)
    requires cs > 0
    ensures |w| <= cs
  {
    PySlice(messages, k * cs, k * cs + cs)
  }

  /** Window k of a non-negative index is the plain slice from offset k * cs. */
  lemma WindowSlice<T>(messages: seq<T>, cs: int, k: int)
    requires cs > 0 && 0 <= k
    ensures Window(messages, cs, k) == messages[Min(k * cs, |messages|)..Min(k * cs + cs, |messages|)]
  {
    MulMonotone(0, k, cs);
  }

  /** Windows s..e-1 concatenated in order. */
  function Chunks<T>(messages: seq<T>, cs: int, s: int, e: int): seq<T>
    requires cs > 0
    decreases e - s
  {
    if e <= s then [] else Chunks(messages, cs, s, e - 1) + Window(messages, cs, e - 1)
  }

  /** The first window a run processes (lines 31-51): after the checkpoint's last window on a
      resumed full run, `start_chunk - 1` on a limited run with a start, window 0 otherwise. */
  function StartWindow(limited: bool, lastProcessed: Option<int>, startChunk: Option<int>): (k: int)
    ensures !limited && lastProcessed.Some? ==> k == lastProcessed.value + 1
    ensures (limited || lastProcessed.None?) && startChunk.Some? ==> k == startChunk.value - 1
    ensures (limited || lastProcessed.None?) && startChunk.None? ==> k == 0
  {
    if !limited && lastProcessed.Some? then lastProcessed.value + 1
    else if startChunk.Some? then startChunk.value - 1
    else 0
  }

  /** The exclusive bound of the loop's window range (lines 55-57). */
  function EndWindow(start: int, numChunks: Option<int>, total: int): (e: int)
    ensures numChunks.Some? ==> e == Min(start + numChunks.value, total)
    ensures numChunks.None? ==> e == total
  {
    if numChunks.Some? then Min(start + numChunks.value, total) else total
  }

  /** The window count is the ceiling of n / cs. */
  lemma TotalChunksIsCeiling(n: nat, cs: int)
    requires cs > 0
    ensures TotalChunks(n, cs) >= 0
    ensures TotalChunks(n, cs) * cs >= n
    ensures (TotalChunks(n, cs) - 1) * cs < n
  {
    var q, r := (n + cs - 1) / cs, (n + cs - 1) % cs;
    assert n + cs - 1 == q * cs + r && 0 <= r < cs;
    assert q * cs == n + cs - 1 - r;
    assert (q - 1) * cs == q * cs - cs;
  }

  /** Window k starts inside the message list exactly when k is below the window count,
      so the loop's `if i >= len(messages): break` fires exactly at window `total_chunks`. */
  lemma StartsInside(n: nat, cs: int, k: int)
    requires cs > 0
    ensures k * cs < n <==> k < TotalChunks(n, cs)
  {
    var t := TotalChunks(n, cs);
    TotalChunksIsCeiling(n, cs);
    if k < t {
      MulMonotone(k, t - 1, cs);
    } else {
      MulMonotone(t, k, cs);
    }
  }

  lemma MulMonotone(a: int, b: int, c: int)
    requires a <= b && c > 0
    ensures a * c <= b * c
  {
    assert b * c - a * c == (b - a) * c;
  }

  /** Every window before the last is full; the last holds the remainder. */
  lemma WindowLength<T>(messages: seq<T>, cs: int, k: int)
    requires cs > 0 && 0 <= k < TotalChunks(|messages|, cs)
    ensures 0 < |Window(messages, cs, k)| <= cs
    ensures k < TotalChunks(|messages|, cs) - 1 ==> |Window(messages, cs, k)| == cs
  {
    var n, a := |messages|, k * cs;
    StartsInside(n, cs, k);
    StartsInside(n, cs, k + 1);
    MulMonotone(0, k, cs);
    assert (k + 1) * cs == a + cs;
    assert 0 <= a < n;
    assert Window(messages, cs, k) == PySlice(messages, a, a + cs);
    if a + cs <= n {
      assert PySlice(messages, a, a + cs) == messages[a..a + cs];
    } else {
      assert PySlice(messages, a, a + cs) == messages[a..n];
    }
  }

  /** Windows s..e-1 of a non-negative range are the contiguous slice they cover. */
  lemma {:induction false} ChunksAreSlice<T>(messages: seq<T>, cs: int, s: int, e: int)
    requires cs > 0 && 0 <= s <= e
    ensures Chunks(messages, cs, s, e) == messages[Min(s * cs, |messages|) .. Min(e * cs, |messages|)]
    decreases e - s
  {
    if e > s {
      ChunksAreSlice(messages, cs, s, e - 1);
      LastChunk(messages, cs, s, e);
      SliceJoin(messages, s * cs, (e - 1) * cs, (e - 1) * cs + cs);
    }
  }

  /** Windows s..e-1 are windows s..e-2 followed by the slice of window e-1. */
  lemma LastChunk<T>(messages: seq<T>, cs: int, s: int, e: int)
    requires cs > 0 && 0 <= s < e
    ensures 0 <= s * cs <= (e - 1) * cs && e * cs == (e - 1) * cs + cs
    ensures Chunks(messages, cs, s, e)
      == Chunks(messages, cs, s, e - 1) + messages[Min((e - 1) * cs, |messages|)..Min((e - 1) * cs + cs, |messages|)]
  {
    MulMonotone(0, s, cs);
    MulMonotone(s, e - 1, cs);
    MulNext(e - 1, cs);
    WindowSlice(messages, cs, e - 1);
  }

  lemma MulNext(a: int, c: int)
    ensures (a + 1) * c == a * c + c
  {
  }

  lemma SliceJoin<T>(m: seq<T>, x: int, y: int, z: int)
    requires 0 <= x <= y <= z
    ensures m[Min(x, |m|)..Min(y, |m|)] + m[Min(y, |m|)..Min(z, |m|)] == m[Min(x, |m|)..Min(z, |m|)]
  {
  }

  /** The windows from s to the last one concatenate to what lies from window s on; from
      window 0 they reproduce the whole message list. */
  lemma WindowsCoverSuffix<T>(messages: seq<T>, cs: int, s: int)
    requires cs > 0 && 0 <= s <= TotalChunks(|messages|, cs)
    ensures Chunks(messages, cs, s, TotalChunks(|messages|, cs)) == messages[Min(s * cs, |messages|) ..]
    ensures Chunks(messages, cs, 0, TotalChunks(|messages|, cs)) == messages
  {
    var t := TotalChunks(|messages|, cs);
    TotalChunksIsCeiling(|messages|, cs);
    ChunksAreSlice(messages, cs, s, t);
    ChunksAreSlice(messages, cs, 0, t);
  }
}
