/**
 * Cutting a sequence into consecutive pieces of a fixed size, the arithmetic shared by
 * getBatch (src/utils.ts), getConcurrentBatch and the concurrency windows of bulkEnqueue
 * (src/queue.ts).
 */
module Chunking {

  /** Concatenation of a sequence of sequences, in order. */
  function Flatten<T>(ss: seq<seq<T>>): seq<T>
  {
    if ss == [] then [] else ss[0] + Flatten(ss[1..])
  }

  lemma {:induction false} FlattenAppend<T>(a: seq<seq<T>>, b: seq<seq<T>>)
    ensures Flatten(a + b) == Flatten(a) + Flatten(b)
  {
    if a == [] {
      assert a + b == b;
    } else {
      assert (a + b)[1..] == a[1..] + b;
      FlattenAppend(a[1..], b);
    }
  }

  function Min(a: int, b: int): int
  {
    if a <= b then a else b
  }

  /**
   * The pieces that `splice(0, size)` removes from the front of `s`, call after call,
   * until nothing is left.
   */
  function Chunks<T>(s: seq<T>, size: nat): seq<seq<T>>
    requires size > 0 || s == []
    decreases |s|
  {
    if s == [] then []
    else
      var k := Min(size, |s|);
      [s[..k]] + Chunks(s[k..], size)
  }

  /**
   * Every piece is non-empty and at most `size` long, every piece but the last is
   * exactly `size` long, and together the pieces give back `s`.
   */
  lemma {:induction false} ChunksShape<T>(s: seq<T>, size: nat)
    requires size > 0 || s == []
    ensures Flatten(Chunks(s, size)) == s
    ensures forall i :: 0 <= i < |Chunks(s, size)| ==> 0 < |Chunks(s, size)[i]| <= size
    ensures forall i :: 0 <= i < |Chunks(s, size)| - 1 ==> |Chunks(s, size)[i]| == size
    ensures Chunks(s, size) == [] <==> s == []
    decreases |s|
  {
    if s != [] {
      var k := Min(size, |s|);
      var rest := Chunks(s[k..], size);
      ChunksShape(s[k..], size);
      assert Chunks(s, size) == [s[..k]] + rest;
      assert ([s[..k]] + rest)[1..] == rest;
      assert s[..k] + s[k..] == s;
      assert k < |s| ==> rest != [];
    }
  }

  lemma MulMonotone(d: int, k: int)
    requires d > 0 && k >= 1
    ensures d * k >= d
  {
    var j := k - 1;
    assert d * k == d * j + d;
  }

  /** Euclidean division is determined by a quotient and a remainder in range. */
  lemma DivUnique(x: int, d: int, q: int, r: int)
    requires d > 0 && 0 <= r < d && x == q * d + r
    ensures x / d == q
  {
    var k := x / d - q;
    assert d * k == r - x % d;
    if k >= 1 { MulMonotone(d, k); }
    if k <= -1 { MulMonotone(d, -k); assert d * (-k) == -(d * k); }
  }

  lemma DivStep(x: nat, d: nat)
    requires d > 0
    ensures (x + d) / d == x / d + 1
  {
    var q, r := x / d, x % d;
    assert x + d == (q + 1) * d + r;
    DivUnique(x + d, d, q + 1, r);
  }

  /** The number of pieces is the ceiling of |s| / size. */
  lemma {:induction false} ChunksCount<T>(s: seq<T>, size: nat)
    requires size > 0
    ensures |Chunks(s, size)| == (|s| + size - 1) / size
  {
    if s == [] {
      DivUnique(size - 1, size, 0, size - 1);
    } else if |s| <= size {
      assert Chunks(s, size) == [s[..|s|]] + Chunks(s[|s|..], size);
      assert s[|s|..] == [];
      DivUnique(|s| + size - 1, size, 1, |s| - 1);
    } else {
      var rest := s[size..];
      assert Chunks(s, size) == [s[..size]] + Chunks(rest, size);
      ChunksCount(rest, size);
      assert |rest| + size - 1 == |s| - 1;
      DivStep(|s| - 1, size);
    }
  }

  /** Cutting full pieces followed by one short tail reproduces those pieces. */
  lemma {:induction false} ChunksOfFull<T>(ws: seq<seq<T>>, tail: seq<T>, size: nat)
    requires size > 0
    requires forall i :: 0 <= i < |ws| ==> |ws[i]| == size
    requires |tail| < size
    ensures Chunks(Flatten(ws) + tail, size) == ws + (if tail == [] then [] else [tail])
  {
    if ws == [] {
      assert Flatten(ws) + tail == tail;
      if tail != [] {
        assert tail[..|tail|] == tail;
        assert Chunks(tail[|tail|..], size) == [];
      }
    } else {
      var s := Flatten(ws) + tail;
      assert s == ws[0] + (Flatten(ws[1..]) + tail);
      assert s[..size] == ws[0];
      assert s[size..] == Flatten(ws[1..]) + tail;
      ChunksOfFull(ws[1..], tail, size);
      assert ws == [ws[0]] + ws[1..];
    }
  }

  /** A sequence of exactly c full pieces is cut into c full pieces. */
  lemma {:induction false} ChunksExact<T>(s: seq<T>, size: nat, c: nat)
    requires size > 0 && |s| == size * c
    ensures |Chunks(s, size)| == c
    ensures forall i :: 0 <= i < c ==> |Chunks(s, size)[i]| == size
  {
    if c > 0 {
      MulMonotone(size, c);
      assert |s[size..]| == size * (c - 1);
      ChunksExact(s[size..], size, c - 1);
      assert Chunks(s, size) == [s[..size]] + Chunks(s[size..], size);
    }
  }

  /** At most c full pieces' worth of elements is cut into at most c pieces. */
  lemma {:induction false} ChunksAtMost<T>(s: seq<T>, size: nat, c: nat)
    requires size > 0 && |s| <= size * c
    ensures |Chunks(s, size)| <= c
  {
    if |s| > size {
      assert |s[size..]| <= size * (c - 1);
      ChunksAtMost(s[size..], size, c - 1);
      assert Chunks(s, size) == [s[..size]] + Chunks(s[size..], size);
    } else if s != [] {
      assert Chunks(s, size) == [s[..|s|]] + Chunks(s[|s|..], size);
      assert s[|s|..] == [];
    }
  }
}
