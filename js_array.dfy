/** The engine's memory: a JavaScript array of integers. Any integer key can
    be assigned (a negative one becomes a plain property); assigning an index
    at or beyond `length` grows the array and leaves holes; reading a hole or
    a key never assigned gives `undefined`; `slice()` copies the indices
    below `length`, holes included. */
module JsArray {
  import opened JsText

  datatype Memory = Memory(cells: map<int, int>, length: nat)

  /** Every defined array index lies below the length. */
  ghost predicate Valid(m: Memory) {
    forall k :: k in m.cells && k >= 0 ==> k < m.length
  }

  /** The array literal / the result of `map` over the program's fields. */
  function FromSeq(xs: seq<int>): (m: Memory)
    ensures Valid(m)
  {
    Memory(map i | 0 <= i < |xs| :: xs[i], |xs|)
  }

  /** memory[n]: a value, or None for `undefined`. */
  function Lookup(m: Memory, n: int): Option<int> {
    if n in m.cells then Some(m.cells[n]) else None
  }

  /** memory[n] = v */
  function Store(m: Memory, n: int, v: int): Memory {
    Memory(m.cells[n := v], if n >= m.length then n + 1 else m.length)
  }

  /** initial.slice() taken as a new array: the indices below the length are
      copied, holes staying holes; a key outside them (a negative one, a
      plain property of the array) is not copied. */
  function Slice(m: Memory): (c: Memory)
    ensures Valid(c) && c.length == m.length
    ensures forall k :: Lookup(c, k) == if 0 <= k < m.length then Lookup(m, k) else None
  {
    Memory(map k | k in m.cells && 0 <= k < m.length :: m.cells[k], m.length)
  }

  /** memory.slice(): one entry per index below the length; None marks a hole. */
  function Snapshot(m: Memory): (s: seq<Option<int>>)
    ensures |s| == m.length
  {
    seq(m.length, i => Lookup(m, i))
  }

  /** The snapshot of an array without holes. */
  function Dense(xs: seq<int>): (s: seq<Option<int>>)
    ensures |s| == |xs| && forall i :: 0 <= i < |xs| ==> s[i] == Some(xs[i])
  {
    seq(|xs|, i requires 0 <= i < |xs| => Some(xs[i]))
  }

  // ---------------------------------------------------------------------

  /** An assignment changes the assigned key and no other, and grows the
      length exactly when it assigns an index at or past the end. */
  lemma StoreChangesOneCell(m: Memory, n: int, v: int, k: int)
    ensures Lookup(Store(m, n, v), k) == if k == n then Some(v) else Lookup(m, k)
    ensures Store(m, n, v).length == if n >= m.length then n + 1 else m.length
    ensures Valid(m) ==> Valid(Store(m, n, v))
  {
  }

  /** A copy of a program's fields reads back as those fields, with no hole. */
  lemma SnapshotFromSeq(xs: seq<int>)
    ensures Snapshot(FromSeq(xs)) == Dense(xs)
  {
  }

  /** A copy reads back as the original at every index. */
  lemma SnapshotSlice(m: Memory)
    ensures Snapshot(Slice(m)) == Snapshot(m)
  {
  }

  /** Copying an array built from a literal changes nothing: it has no key
      outside its indices. */
  lemma SliceFromSeq(xs: seq<int>)
    ensures Slice(FromSeq(xs)) == FromSeq(xs)
  {
    assert Slice(FromSeq(xs)).cells == FromSeq(xs).cells;
  }

  /** Assigning an index inside an array without holes gives the array of
      the updated sequence. */
  lemma StoreFromSeq(xs: seq<int>, n: int, v: int)
    requires 0 <= n < |xs|
    ensures Store(FromSeq(xs), n, v) == FromSeq(xs[n := v])
  {
    assert Store(FromSeq(xs), n, v).cells == FromSeq(xs[n := v]).cells;
  }

  /** Assigning the index just past the end of an array without holes
      appends to it. */
  lemma StoreAppend(xs: seq<int>, v: int)
    ensures Store(FromSeq(xs), |xs|, v) == FromSeq(xs + [v])
  {
    assert Store(FromSeq(xs), |xs|, v).cells == FromSeq(xs + [v]).cells;
  }

  /** A snapshot shows an assignment inside the array at its index and
      nowhere else. */
  lemma SnapshotStore(m: Memory, n: int, v: int)
    requires 0 <= n < m.length
    ensures Snapshot(Store(m, n, v)) == Snapshot(m)[n := Some(v)]
  {
  }

  /** xs.indexOf(v): the first index holding v, or -1 when there is none. */
  function IndexOf<T(==)>(xs: seq<T>, v: T): (i: int)
    ensures -1 <= i < |xs|
    ensures i >= 0 ==> xs[i] == v
  {
    if xs == [] then -1
    else if xs[0] == v then 0
    else
      var k := IndexOf(xs[1..], v);
      if k == -1 then -1 else k + 1
  }

  /** indexOf finds the first occurrence, and -1 means there is none. */
  lemma {:induction false} IndexOfFirst<T>(xs: seq<T>, v: T)
    ensures IndexOf(xs, v) >= 0 ==> forall j :: 0 <= j < IndexOf(xs, v) ==> xs[j] != v
    ensures IndexOf(xs, v) == -1 <==> v !in xs
    decreases |xs|
  {
    if xs != [] && xs[0] != v {
      IndexOfFirst(xs[1..], v);
      assert xs == [xs[0]] + xs[1..];
    }
  }
}
