/**
 * Cutting a sequence into consecutive slices of at most `limit` elements:
 * the shape both of `range(0, n, limit)` batching and of a server's pages.
 */
module Chunking {

  /** The consecutive slices of at most `limit` elements of `s`, in order. */
  function Chunks<T>(s: seq<T>, limit: nat): (r: seq<seq<T>>)
    requires limit > 0
    ensures |r| == (|s| + limit - 1) / limit
    decreases |s|
  {
    if s == [] then []
    else
      var n := if |s| < limit then |s| else limit;
      CeilStep(|s|, n, limit);
      [s[..n]] + Chunks(s[n..], limit)
  }

  /** Taking one full chunk, or the whole of a short tail, takes one off the chunk count. */
  lemma CeilStep(m: nat, n: nat, limit: nat)
    requires 0 < n <= m && limit > 0
    requires n == limit || n == m < limit
    ensures (m + limit - 1) / limit == (m - n + limit - 1) / limit + 1
  {
    var a := m - n + limit - 1;
    if n == limit {
      DivUnique(a + limit, limit, a / limit + 1, a % limit);
    } else {
      DivUnique(m + limit - 1, limit, 1, m - 1);
      DivUnique(a, limit, 0, limit - 1);
    }
  }

  /** Chunk `b` exists exactly when `b * limit` is still inside the sequence. */
  lemma ChunkExists(n: nat, limit: nat, b: nat)
    requires limit > 0
    ensures b * limit < n <==> b < (n + limit - 1) / limit
  {
    var c := (n + limit - 1) / limit;
    var r := (n + limit - 1) % limit;
    assert c * limit + r == n + limit - 1;
    if b < c {
      MulMono(b, c - 1, limit);
    } else {
      MulMono(c, b, limit);
    }
  }

  /** Euclidean division has a unique quotient. */
  lemma DivUnique(a: nat, limit: nat, q: int, r: int)
    requires limit > 0 && 0 <= r < limit && a == q * limit + r
    ensures a / limit == q
  {
    var q', r' := a / limit, a % limit;
    assert a == q' * limit + r';
    if q' < q {
      assert q' * limit + limit <= q * limit by { MulMono(q' + 1, q, limit); }
    } else if q' > q {
      assert q * limit + limit <= q' * limit by { MulMono(q + 1, q', limit); }
    }
  }

  lemma MulMono(x: int, y: int, k: nat)
    requires x <= y
    ensures x * k <= y * k
  {
  }

  /** Concatenation of a sequence of sequences. */
  function Flatten<T>(ss: seq<seq<T>>): seq<T> {
    if ss == [] then [] else ss[0] + Flatten(ss[1..])
  }

  /** Chunking loses and repeats nothing: the chunks concatenate back to `s`. */
  lemma {:induction false} FlattenChunks<T>(s: seq<T>, limit: nat)
    requires limit > 0
    ensures Flatten(Chunks(s, limit)) == s
    decreases |s|
  {
    if s != [] {
      var n := if |s| < limit then |s| else limit;
      FlattenChunks(s[n..], limit);
      assert s == s[..n] + s[n..];
    }
  }

  /** Every chunk is non-empty and holds at most `limit` elements. */
  lemma {:induction false} ChunkSizes<T>(s: seq<T>, limit: nat)
    requires limit > 0
    ensures forall i :: 0 <= i < |Chunks(s, limit)| ==> 0 < |Chunks(s, limit)[i]| <= limit
    decreases |s|
  {
    if s != [] {
      var n := if |s| < limit then |s| else limit;
      ChunkSizes(s[n..], limit);
      var c := Chunks(s, limit);
      assert c == [s[..n]] + Chunks(s[n..], limit);
      forall i | 0 <= i < |c| ensures 0 < |c[i]| <= limit {
        if i > 0 { assert c[i] == Chunks(s[n..], limit)[i - 1]; }
      }
    }
  }

  /** Where chunk `i` starts, counted up one full chunk at a time. */
  function Offset(i: nat, limit: nat): nat {
    if i == 0 then 0 else Offset(i - 1, limit) + limit
  }

  lemma {:induction false} OffsetProduct(i: nat, limit: nat)
    ensures Offset(i, limit) == i * limit
  {
    if i > 0 {
      OffsetProduct(i - 1, limit);
      MulSucc(i - 1, limit);
    }
  }

  /** Chunk `i` starts at `Offset(i, limit)` and runs `limit` elements on, clipped to `|s|`. */
  lemma {:induction false} ChunkAtOffset<T>(s: seq<T>, limit: nat, i: nat)
    requires limit > 0 && i < |Chunks(s, limit)|
    ensures Offset(i, limit) < |s|
    ensures Chunks(s, limit)[i] == s[Offset(i, limit) .. if Offset(i, limit) + limit <= |s| then Offset(i, limit) + limit else |s|]
    decreases |s|
  {
    var n := if |s| < limit then |s| else limit;
    if i == 0 {
      assert Chunks(s, limit)[0] == s[..n];
    } else {
      var t := s[n..];
      ChunkAtOffset(t, limit, i - 1);
      assert Chunks(s, limit)[i] == Chunks(t, limit)[i - 1];
      assert n == limit;
      var lo := Offset(i - 1, limit);
      var hi := if lo + limit <= |t| then lo + limit else |t|;
      assert t[lo..hi] == s[lo + n..hi + n];
    }
  }

  /** Chunk `i` is the slice `s[i * limit .. (i + 1) * limit]`, clipped to `|s|`. */
  lemma ChunkAt<T>(s: seq<T>, limit: nat, i: nat)
    requires limit > 0 && i < |Chunks(s, limit)|
    ensures i * limit < |s|
    ensures Chunks(s, limit)[i] == s[i * limit .. if (i + 1) * limit <= |s| then (i + 1) * limit else |s|]
  {
    ChunkAtOffset(s, limit, i);
    OffsetProduct(i, limit);
    MulSucc(i, limit);
  }

  lemma MulSucc(i: nat, limit: nat)
    ensures (i + 1) * limit == i * limit + limit
  {
  }

}
