/** Bytes, chunks of bytes and their concatenation: the vocabulary shared by every component. */
module ByteSeqs {
  newtype byte = x: int | 0 <= x < 256

  type Bytes = seq<byte>

  datatype Option<+T> = None | Some(value: T)

  /** Terminal output on its way to the server: bytes and the stream position of the first one. */
  datatype TerminalData = TerminalData(seq0: nat, data: Bytes)

  function Min(a: nat, b: nat): nat {
    if a <= b then a else b
  }

  function Max(a: nat, b: nat): nat {
    if a >= b then a else b
  }

  /** Total number of bytes held by a list of chunks. */
  function Total(chunks: seq<Bytes>): nat {
    if chunks == [] then 0 else |chunks[0]| + Total(chunks[1..])
  }

  /** The byte string that a list of chunks spells out. */
  function Flatten<T>(chunks: seq<seq<T>>): seq<T> {
    if chunks == [] then [] else chunks[0] + Flatten(chunks[1..])
  }

  lemma {:induction false} TotalAppend(a: seq<Bytes>, b: seq<Bytes>)
    ensures Total(a + b) == Total(a) + Total(b)
  {
    if a == [] {
      assert a + b == b;
    } else {
      assert (a + b)[1..] == a[1..] + b;
      TotalAppend(a[1..], b);
    }
  }

  lemma {:induction false} FlattenAppend<T>(a: seq<seq<T>>, b: seq<seq<T>>)
    ensures Flatten(a + b) == Flatten(a) + Flatten(b)
  {
    if a == [] {
      assert a + b == b;
    } else {
      assert (a + b)[1..] == a[1..] + b;
      FlattenAppend(a[1..], b);
    }
  }

  lemma {:induction false} FlattenLength(chunks: seq<Bytes>)
    ensures |Flatten(chunks)| == Total(chunks)
  {
    if chunks != [] {
      FlattenLength(chunks[1..]);
    }
  }

  lemma AppendThree<T>(a: seq<T>, b: seq<T>, c: seq<T>)
    ensures a + b + c == a + (b + c)
  {
  }

  /** A slice taken inside a suffix is a slice of the whole. */
  lemma SliceOfDrop<T>(s: seq<T>, o: nat, a: nat, b: nat)
    requires o + b <= |s| && a <= b
    ensures s[o..][a..b] == s[o + a..o + b]
  {
  }

  /** A slice that lies within a prefix. */
  lemma SliceOfPrefix<T>(p: seq<T>, s: seq<T>, a: nat, b: nat)
    requires p <= s && a <= b <= |p|
    ensures s[a..b] == p[a..b]
  {
  }

  /** Adjacent slices join. */
  lemma JoinSlices<T>(s: seq<T>, a: nat, b: nat, c: nat)
    requires a <= b <= c <= |s|
    ensures s[a..c] == s[a..b] + s[b..c]
  {
  }

  /** Cutting a list of chunks in two splits its total. */
  lemma TotalSplit(chunks: seq<Bytes>, k: nat)
    requires k <= |chunks|
    ensures Total(chunks) == Total(chunks[..k]) + Total(chunks[k..])
  {
    assert chunks == chunks[..k] + chunks[k..];
    TotalAppend(chunks[..k], chunks[k..]);
  }

  lemma TotalCut(chunks: seq<Bytes>, a: nat, b: nat)
    requires a <= b <= |chunks|
    ensures Total(chunks[..b]) == Total(chunks[..a]) + Total(chunks[a..b])
  {
    assert chunks[..b] == chunks[..a] + chunks[a..b];
    TotalAppend(chunks[..a], chunks[a..b]);
  }

  /** Cutting a suffix. */
  lemma DropCut<T>(s: seq<T>, a: nat, b: nat)
    requires a <= b <= |s|
    ensures s[a..][..b - a] == s[a..b]
    ensures s[a..][b - a..] == s[b..]
  {
  }

  /** Cutting a prefix. */
  lemma PrefixCut<T>(s: seq<T>, n: nat, a: nat)
    requires a <= n <= |s|
    ensures s[..n][..a] == s[..a]
    ensures s[..n][a..] == s[a..n]
  {
  }

  /** Reading one more chunk adds its length. */
  lemma TotalSnoc(chunks: seq<Bytes>, k: nat)
    requires k < |chunks|
    ensures Total(chunks[..k + 1]) == Total(chunks[..k]) + |chunks[k]|
  {
    assert chunks[..k + 1] == chunks[..k] + [chunks[k]];
    TotalAppend(chunks[..k], [chunks[k]]);
  }

  /** No chunk in the list is empty. */
  predicate NoneEmpty(chunks: seq<Bytes>) {
    forall i :: 0 <= i < |chunks| ==> |chunks[i]| > 0
  }
}
