/** `EnumerableExtensions.Chunk`: cut a sequence into contiguous groups of
    `size` items, the last group holding whatever is left over. */
module EnumerableExtensions {
  import opened Wrappers

  /** The items of `chunks`, one chunk after another. */
  function Flatten<T>(chunks: seq<seq<T>>): seq<T>
    decreases |chunks|
  {
    if chunks == [] then [] else chunks[0] + Flatten(chunks[1..])
  }

  /** What the source's loop produces for a non-negative `size`: full groups of
      `size` items and a final non-empty remainder; with `size == 0` the counter
      never equals `size`, so every item lands in a single group. */
  function Chunked<T>(s: seq<T>, size: nat): (r: seq<seq<T>>)
    decreases |s|
  {
    if s == [] then []
    else if size == 0 || |s| <= size then [s]
    else [s[..size]] + Chunked(s[size..], size)
  }

  /** A declarative description of a chunking of `s`: the chunks concatenate to
      `s`, none is empty, and with a positive `size` all hold at most `size`
      items and all but the last exactly `size`; with `size == 0` there is at
      most one chunk. */
  ghost predicate IsChunking<T>(chunks: seq<seq<T>>, s: seq<T>, size: nat)
  {
    && Flatten(chunks) == s
    && (forall i :: 0 <= i < |chunks| ==> chunks[i] != [])
    && (size > 0 ==> forall i :: 0 <= i < |chunks| ==> |chunks[i]| <= size)
    && (size > 0 ==> forall i :: 0 <= i < |chunks| - 1 ==> |chunks[i]| == size)
    && (size == 0 ==> |chunks| <= 1)
  }

  /** `collection.Chunk(size)`. The `List<T>` the iterator allocates first takes
      `size` as its capacity, which throws for a negative `size` before any
      item is read. */
  method Chunk<T>(collection: seq<T>, size: int) returns (r: Result<seq<seq<T>>>)
    ensures size < 0 ==> r == Err(ArgumentOutOfRange)
    ensures size >= 0 ==> r.Ok? && IsChunking(r.value, collection, size)
    ensures size >= 0 ==> r.value == Chunked(collection, size)
    ensures size >= 0 ==> (r.value == [] <==> collection == [])
    ensures size == 0 && collection != [] ==> r.value == [collection]
  {
    if size < 0 {
      return Err(ArgumentOutOfRange);
    }
    var chunks: seq<seq<T>> := [];
    var ret: seq<T> := [];
    var innerCounter := 0;
    ghost var start := 0;
    for i := 0 to |collection|
      invariant innerCounter == |ret| && start + |ret| == i
      invariant size > 0 ==> |ret| < size && WholeGroups(start, size)
      invariant size == 0 ==> start == 0
      invariant ret == collection[start..i]
      invariant chunks == Chunked(collection[..start], size)
    {
      ret := ret + [collection[i]];
      innerCounter := innerCounter + 1;
      assert ret == collection[start..i + 1];
      if innerCounter == size {
        ChunkedExtend(collection, start, i + 1, size);
        chunks := chunks + [ret];
        ret := [];
        innerCounter := 0;
        start := i + 1;
      }
    }
    if |ret| > 0 {
      if size > 0 {
        ChunkedExtend(collection, start, |collection|, size);
      }
      chunks := chunks + [ret];
    }
    assert collection[..|collection|] == collection;
    ChunkedIsChunking(collection, size);
    return Ok(chunks);
  }

  /** `n` items make whole groups of `size`. */
  predicate WholeGroups(n: nat, size: nat)
    requires size > 0
    decreases n
  {
    n == 0 || (n >= size && WholeGroups(n - size, size))
  }

  /** After whole groups, the items from `start` up to `end` (at most `size` of
      them, at least one) form the next chunk. */
  lemma {:induction false} ChunkedExtend<T>(s: seq<T>, start: nat, end: nat, size: nat)
    requires size > 0 && WholeGroups(start, size) && start < end <= |s| && end - start <= size
    ensures Chunked(s[..end], size) == Chunked(s[..start], size) + [s[start..end]]
  {
    assert s[..start] + s[start..end] == s[..end];
    ChunkedSnoc(s[..start], s[start..end], size);
  }

  /** Appending one group of at most `size` items to whole groups adds exactly
      that group as the last chunk. */
  lemma {:induction false} ChunkedSnoc<T>(p: seq<T>, q: seq<T>, size: nat)
    requires size > 0 && WholeGroups(|p|, size) && 0 < |q| <= size
    ensures Chunked(p + q, size) == Chunked(p, size) + [q]
    decreases |p|
  {
    if p == [] {
      assert p + q == q;
    } else {
      assert (p + q)[..size] == p[..size];
      assert (p + q)[size..] == p[size..] + q;
      ChunkedSnoc(p[size..], q, size);
      if |p| == size {
        assert p[..size] == p && p[size..] == [];
      }
    }
  }

  lemma {:induction false} FlattenLength<T>(chunks: seq<seq<T>>)
    requires chunks != []
    ensures |Flatten(chunks)| >= |chunks[0]|
  {
  }

  /** The chunks concatenate back to the input, in order. */
  lemma {:induction false} ChunkedFlatten<T>(s: seq<T>, size: nat)
    ensures Flatten(Chunked(s, size)) == s
    decreases |s|
  {
    if s != [] && size != 0 && |s| > size {
      ChunkedFlatten(s[size..], size);
      assert ([s[..size]] + Chunked(s[size..], size))[1..] == Chunked(s[size..], size);
      assert s[..size] + s[size..] == s;
    } else if s != [] {
      assert s + [] == s;
    }
  }

  /** No chunk is empty; with a positive `size` each has at most `size` items
      and every chunk but the last has exactly `size`. */
  lemma {:induction false} ChunkedShape<T>(s: seq<T>, size: nat)
    ensures var r := Chunked(s, size);
      && (forall i :: 0 <= i < |r| ==> r[i] != [])
      && (size > 0 ==> forall i :: 0 <= i < |r| ==> |r[i]| <= size)
      && (size > 0 ==> forall i :: 0 <= i < |r| - 1 ==> |r[i]| == size)
      && (size == 0 ==> |r| <= 1)
    decreases |s|
  {
    if s != [] && size != 0 && |s| > size {
      ChunkedShape(s[size..], size);
      var r := Chunked(s, size);
      assert r[1..] == Chunked(s[size..], size);
    }
  }

  lemma {:induction false} ChunkedIsChunking<T>(s: seq<T>, size: nat)
    ensures IsChunking(Chunked(s, size), s, size)
  {
    ChunkedFlatten(s, size);
    ChunkedShape(s, size);
  }

  /** A chunking is unique: whatever satisfies the declarative description is
      the sequence of chunks the source's loop yields. */
  lemma {:induction false} ChunkingUnique<T>(chunks: seq<seq<T>>, s: seq<T>, size: nat)
    requires IsChunking(chunks, s, size)
    ensures chunks == Chunked(s, size)
    decreases |chunks|
  {
    if chunks == [] {
    } else if |chunks| == 1 {
      assert Flatten(chunks) == chunks[0] + Flatten(chunks[1..]);
      assert chunks[0] + [] == chunks[0];
    } else {
      var rest := chunks[1..];
      assert Flatten(chunks) == chunks[0] + Flatten(rest);
      FlattenLength(rest);
      assert |s| > size;
      assert s[..size] == chunks[0] && s[size..] == Flatten(rest);
      assert forall i :: 0 <= i < |rest| ==> rest[i] == chunks[i + 1];
      ChunkingUnique(rest, s[size..], size);
    }
  }

  /** The chunk of `s` that starts at item `start`: `size` items, or what is
      left of `s` if that is fewer. */
  function ChunkFrom<T>(s: seq<T>, start: nat, size: nat): (chunk: seq<T>)
    requires start <= |s|
    ensures |chunk| <= size
  {
    if start + size <= |s| then s[start..start + size] else s[start..]
  }

  /** The first item of the chunk that holds item `f`, chunks being `size`
      items long. */
  function ChunkStart(f: nat, size: nat): (start: nat)
    requires size > 0
    ensures start <= f < start + size
    decreases f
  {
    if f < size then 0 else size + ChunkStart(f - size, size)
  }

  /** The index of the chunk that holds item `f`, chunks being `size` items long. */
  function ChunkIndex(f: nat, size: nat): nat
    requires size > 0
    decreases f
  {
    if f < size then 0 else 1 + ChunkIndex(f - size, size)
  }

  /** The items of the first `k` chunks, in order. */
  function FlattenTo<T>(chunks: seq<seq<T>>, k: nat): (items: seq<T>)
    requires k <= |chunks|
  {
    if k == 0 then [] else FlattenTo(chunks, k - 1) + chunks[k - 1]
  }

  /** Where item `f` lies in `Chunked(s, size)`: chunk `ChunkIndex(f, size)`
      is `ChunkFrom(s, ChunkStart(f, size), size)`, and the chunks before it
      hold exactly the items before `ChunkStart(f, size)`. */
  lemma {:induction false} ChunkedAt<T>(s: seq<T>, size: nat, f: nat)
    requires size > 0 && f < |s|
    ensures ChunkIndex(f, size) < |Chunked(s, size)|
    ensures FlattenTo(Chunked(s, size), ChunkIndex(f, size)) == s[..ChunkStart(f, size)]
    ensures Chunked(s, size)[ChunkIndex(f, size)] == ChunkFrom(s, ChunkStart(f, size), size)
    decreases f
  {
    if f < size {
      assert s[..0] == [] && s[0..] == s;
      assert Chunked(s, size)[0] == ChunkFrom(s, 0, size);
    } else {
      var chunks, rest := Chunked(s, size), Chunked(s[size..], size);
      var start, k := ChunkStart(f - size, size), ChunkIndex(f - size, size);
      assert ChunkStart(f, size) == size + start && ChunkIndex(f, size) == k + 1;
      assert chunks == [s[..size]] + rest;
      ChunkedAt(s[size..], size, f - size);
      assert chunks[k + 1] == ChunkFrom(s, size + start, size) by {
        assert chunks[k + 1] == rest[k];
        ChunkFromDrop(s, size, start, size);
      }
      assert FlattenTo(chunks, k + 1) == s[..size + start] by {
        FlattenToCons(s[..size], rest, k);
        TakeAfterDrop(s, size, start);
      }
    }
  }

  /** The first `n` items followed by the first `m` of the rest are the first
      `n + m` items. Kept apart from `ChunkedAt`, whose context makes this
      step expensive. */
  lemma {:induction false} TakeAfterDrop<T>(s: seq<T>, n: nat, m: nat)
    requires n + m <= |s|
    ensures s[..n] + s[n..][..m] == s[..n + m]
  {
  }

  /** Dropping `n` items shifts where a chunk starts by `n`. */
  lemma {:induction false} ChunkFromDrop<T>(s: seq<T>, n: nat, start: nat, size: nat)
    requires n + start <= |s|
    ensures ChunkFrom(s[n..], start, size) == ChunkFrom(s, n + start, size)
  {
  }

  /** Prepending a chunk prepends its items to every prefix flattening. */
  lemma {:induction false} FlattenToCons<T>(chunk: seq<T>, chunks: seq<seq<T>>, k: nat)
    requires k <= |chunks|
    ensures FlattenTo([chunk] + chunks, k + 1) == chunk + FlattenTo(chunks, k)
    decreases k
  {
    if k > 0 {
      FlattenToCons(chunk, chunks, k - 1);
      assert ([chunk] + chunks)[k] == chunks[k - 1];
      assert (chunk + FlattenTo(chunks, k - 1)) + chunks[k - 1] == chunk + (FlattenTo(chunks, k - 1) + chunks[k - 1]);
    }
  }

  /** With a positive `size` and n items there are ceil(n / size) chunks. */
  lemma {:induction false} ChunkedCount<T>(s: seq<T>, size: nat)
    requires size > 0
    ensures |Chunked(s, size)| == (|s| + size - 1) / size
    decreases |s|
  {
    if s == [] {
      assert (size - 1) / size == 0;
    } else if |s| <= size {
      assert (|s| + size - 1) / size == 1;
    } else {
      ChunkedCount(s[size..], size);
      DivStep(|s| - size + size - 1, size);
    }
  }

  lemma {:induction false} DivStep(x: nat, size: nat)
    requires size > 0
    ensures (x + size) / size == x / size + 1
  {
    var q, r := x / size, x % size;
    assert x == q * size + r;
    assert x + size == (q + 1) * size + r;
    DivUnique(x + size, size, q + 1, r);
  }

  lemma {:induction false} DivUnique(n: int, d: int, q: int, r: int)
    requires d > 0 && 0 <= r < d && n == q * d + r
    ensures n / d == q
  {
    var q', r' := n / d, n % d;
    assert q' * d + r' == q * d + r;
    assert (q' - q) * d == r - r';
    if q' > q {
      MulAtLeast(q' - q, d);
    } else if q' < q {
      MulAtLeast(q - q', d);
    }
  }

  lemma {:induction false} MulAtLeast(k: nat, d: nat)
    requires k >= 1
    ensures k * d >= d
  {
    if k > 1 {
      MulAtLeast(k - 1, d);
      assert k * d == (k - 1) * d + d;
    }
  }
}
