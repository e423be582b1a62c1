/** The pure list operations the screens apply to their local state, and the
    display state every list screen derives from `loading` and the list length. */
module Collections {

  /** `s.filter(x => key(x) !== k)`: the elements whose key differs from `k`, in order. */
  function WithoutKey<T>(s: seq<T>, key: T -> int, k: int): (r: seq<T>)
    ensures |r| <= |s|
    ensures forall i :: 0 <= i < |r| ==> key(r[i]) != k
    ensures forall i :: 0 <= i < |r| ==> r[i] in s
  {
    if s == [] then []
    else if key(s[0]) == k then WithoutKey(s[1..], key, k)
    else [s[0]] + WithoutKey(s[1..], key, k)
  }

  /** No two positions of `s` carry the same key. */
  predicate UniqueKeys<T>(s: seq<T>, key: T -> int)
  {
    forall i, j :: 0 <= i < j < |s| ==> key(s[i]) != key(s[j])
  }

  /** Filtering distributes over concatenation: relative order is preserved. */
  lemma {:induction false} WithoutKeyAppend<T>(a: seq<T>, b: seq<T>, key: T -> int, k: int)
    ensures WithoutKey(a + b, key, k) == WithoutKey(a, key, k) + WithoutKey(b, key, k)
  {
    if a == [] {
      assert a + b == b;
    } else {
      assert (a + b)[1..] == a[1..] + b;
      WithoutKeyAppend(a[1..], b, key, k);
    }
  }

  /** Removing a key that no element carries leaves the list as it was. */
  lemma {:induction false} WithoutKeyAbsent<T>(s: seq<T>, key: T -> int, k: int)
    requires forall i :: 0 <= i < |s| ==> key(s[i]) != k
    ensures WithoutKey(s, key, k) == s
  {
    if s != [] {
      WithoutKeyAbsent(s[1..], key, k);
      assert [s[0]] + s[1..] == s;
    }
  }

  /** Exactly the elements carrying key `k` go; every other element keeps its
      multiplicity. */
  lemma {:induction false} WithoutKeyCounts<T>(s: seq<T>, key: T -> int, k: int, x: T)
    ensures multiset(WithoutKey(s, key, k))[x] == if key(x) == k then 0 else multiset(s)[x]
  {
    if s != [] {
      WithoutKeyCounts(s[1..], key, k, x);
      assert s == [s[0]] + s[1..];
    }
  }

  /** With unique keys, removing a present key takes out exactly its one
      position and shortens the list by one. */
  lemma WithoutKeyUnique<T>(s: seq<T>, key: T -> int, k: int, p: nat)
    requires UniqueKeys(s, key)
    requires p < |s| && key(s[p]) == k
    ensures WithoutKey(s, key, k) == s[..p] + s[p + 1..]
    ensures |WithoutKey(s, key, k)| == |s| - 1
  {
    assert s == s[..p] + ([s[p]] + s[p + 1..]);
    WithoutKeyAppend(s[..p], [s[p]] + s[p + 1..], key, k);
    WithoutKeyAppend([s[p]], s[p + 1..], key, k);
    WithoutKeyAbsent(s[..p], key, k);
    WithoutKeyAbsent(s[p + 1..], key, k);
    assert WithoutKey([s[p]], key, k) == [];
  }

  /** Removing the same key twice removes nothing more. */
  lemma {:induction false} WithoutKeyIdempotent<T>(s: seq<T>, key: T -> int, k: int)
    ensures WithoutKey(WithoutKey(s, key, k), key, k) == WithoutKey(s, key, k)
  {
    WithoutKeyAbsent(WithoutKey(s, key, k), key, k);
  }

  /** `s.filter((_, i) => i !== index)`: every position but `index`. */
  function WithoutIndex<T>(s: seq<T>, index: int): (r: seq<T>)
    ensures |r| == if 0 <= index < |s| then |s| - 1 else |s|
    ensures forall i :: 0 <= i < |r| ==> r[i] in s
  {
    if s == [] then []
    else (if index == 0 then [] else [s[0]]) + WithoutIndex(s[1..], index - 1)
  }

  /** The index filter removes exactly position `index` when it exists, keeping
      the rest in order, and leaves the list unchanged otherwise. */
  lemma {:induction false} WithoutIndexSlices<T>(s: seq<T>, index: int)
    ensures 0 <= index < |s| ==> WithoutIndex(s, index) == s[..index] + s[index + 1..]
    ensures !(0 <= index < |s|) ==> WithoutIndex(s, index) == s
  {
    if s != [] {
      var tail := s[1..];
      WithoutIndexSlices(tail, index - 1);
      assert WithoutIndex(s, index) == (if index == 0 then [] else [s[0]]) + WithoutIndex(tail, index - 1);
      if index == 0 {
        assert WithoutIndex(tail, -1) == tail;
      } else if 0 < index < |s| {
        assert WithoutIndex(tail, index - 1) == tail[..index - 1] + tail[index..];
        assert s[..index] == [s[0]] + tail[..index - 1];
        assert s[index + 1..] == tail[index..];
      } else {
        assert WithoutIndex(tail, index - 1) == tail;
        assert [s[0]] + tail == s;
      }
    }
  }

  /** What a list screen shows: the spinner, the table, or the "nothing found" line. */
  datatype ListView = Spinner | Table | EmptyMessage

  /** The three JSX conditions `loading`, `!loading && n > 0` and
      `!loading && n === 0` select exactly one view. */
  function ViewOf(loading: bool, count: nat): (v: ListView)
    ensures v == Spinner <==> loading
    ensures v == Table <==> !loading && count > 0
    ensures v == EmptyMessage <==> !loading && count == 0
  {
    if loading then Spinner else if count > 0 then Table else EmptyMessage
  }
}
