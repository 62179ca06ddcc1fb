/** Keyed tables as sequences of rows: the lookups, deletions and key
    invariants that every table of the repository shares. */
module Tables {
  import opened Wrappers

  /** Every key is below the next value of the table's serial sequence. */
  ghost predicate KeysBelow<T>(s: seq<T>, key: T -> int, bound: int)
  {
    forall i :: 0 <= i < |s| ==> key(s[i]) < bound
  }

  /** No two rows share a key (a primary key). */
  ghost predicate DistinctKeys<T>(s: seq<T>, key: T -> int)
  {
    forall i, j :: 0 <= i < j < |s| ==> key(s[i]) != key(s[j])
  }

  /** `LoadOne ... WHERE col = ?`: the first row whose column equals `k`. */
  function FindFirst<T, K(==)>(s: seq<T>, k: K, col: T -> K): (r: Option<T>)
    ensures r.Some? ==> r.value in s && col(r.value) == k
    ensures r.None? <==> forall i :: 0 <= i < |s| ==> col(s[i]) != k
    ensures r.Some? ==> exists i :: 0 <= i < |s| && s[i] == r.value
                                    && forall j :: 0 <= j < i ==> col(s[j]) != k
  {
    if s == [] then None
    else if col(s[0]) == k then Some(s[0])
    else
      var r := FindFirst(s[1..], k, col);
      assert r.Some? ==> exists i :: 1 <= i < |s| && s[i] == r.value
                                     && forall j :: 0 <= j < i ==> col(s[j]) != k by {
        if r.Some? {
          var i' :| 0 <= i' < |s[1..]| && s[1..][i'] == r.value
                    && forall j :: 0 <= j < i' ==> col(s[1..][j]) != k;
          assert s[i' + 1] == r.value;
          forall j | 0 <= j < i' + 1 ensures col(s[j]) != k {
            if j > 0 { assert s[j] == s[1..][j - 1]; }
          }
        }
      }
      r
  }

  /** With a primary key, the row a lookup finds is the only row with it. */
  lemma FindFirstUnique<T>(s: seq<T>, k: int, key: T -> int, x: T)
    requires DistinctKeys(s, key)
    requires x in s && key(x) == k
    ensures FindFirst(s, k, key) == Some(x)
  {
    var r := FindFirst(s, k, key);
    var i :| 0 <= i < |s| && s[i] == x;
    var i' :| 0 <= i' < |s| && s[i'] == r.value && forall j :: 0 <= j < i' ==> key(s[j]) != k;
    if i < i' {
    } else if i' < i {
    }
  }

  /** A row appended with a column value no earlier row has is what a
      lookup of that value finds. */
  lemma {:induction false} FindFirstAppendNew<T, K>(s: seq<T>, x: T, k: K, col: T -> K)
    requires forall i :: 0 <= i < |s| ==> col(s[i]) != k
    requires col(x) == k
    ensures FindFirst(s + [x], k, col) == Some(x)
  {
    if s != [] {
      assert (s + [x])[1..] == s[1..] + [x];
      FindFirstAppendNew(s[1..], x, k, col);
    }
  }

  /** `DELETE FROM ... WHERE id = ?`: drop every row with key `id`, keep the
      others in order. */
  function RemoveKey<T(!new)>(s: seq<T>, id: int, key: T -> int): (r: seq<T>)
    ensures forall x :: x in r <==> x in s && key(x) != id
    ensures |r| <= |s|
    ensures (forall i :: 0 <= i < |s| ==> key(s[i]) != id) ==> r == s
  {
    if s == [] then []
    else if key(s[0]) == id then RemoveKey(s[1..], id, key)
    else [s[0]] + RemoveKey(s[1..], id, key)
  }

  /** Deleting keeps the serial bound and the primary key. */
  lemma RemoveKeyKeepsKeys<T(!new)>(s: seq<T>, id: int, key: T -> int, bound: int)
    requires KeysBelow(s, key, bound) && DistinctKeys(s, key)
    ensures KeysBelow(RemoveKey(s, id, key), key, bound) && DistinctKeys(RemoveKey(s, id, key), key)
  {
    var r := RemoveKey(s, id, key);
    forall i | 0 <= i < |r| ensures key(r[i]) < bound {
      assert r[i] in s;
    }
    RemoveKeyDistinct(s, id, key);
  }

  lemma {:induction false} RemoveKeyDistinct<T(!new)>(s: seq<T>, id: int, key: T -> int)
    requires DistinctKeys(s, key)
    ensures DistinctKeys(RemoveKey(s, id, key), key)
  {
    if s != [] {
      var tail := s[1..];
      assert DistinctKeys(tail, key) by {
        forall i, j | 0 <= i < j < |tail| ensures key(tail[i]) != key(tail[j]) {
          assert tail[i] == s[i + 1] && tail[j] == s[j + 1];
        }
      }
      RemoveKeyDistinct(tail, id, key);
      var rest := RemoveKey(tail, id, key);
      if key(s[0]) != id {
        forall y | y in rest ensures key(s[0]) != key(y) {
          assert y in tail;
          var k :| 0 <= k < |tail| && tail[k] == y;
          assert s[k + 1] == y;
        }
        var r := [s[0]] + rest;
        forall i, j | 0 <= i < j < |r| ensures key(r[i]) != key(r[j]) {
          assert r[j] == rest[j - 1] && r[j] in rest;
          if i > 0 {
            assert r[i] == rest[i - 1];
          }
        }
      }
    }
  }

  /** Appending a row keyed with the sequence's next value keeps both key
      invariants, for the bound moved past it. */
  lemma AppendKeepsKeys<T>(s: seq<T>, x: T, key: T -> int, bound: int)
    requires KeysBelow(s, key, bound) && DistinctKeys(s, key)
    requires key(x) == bound
    ensures KeysBelow(s + [x], key, bound + 1) && DistinctKeys(s + [x], key)
  {
    forall i, j | 0 <= i < j < |s + [x]| ensures key((s + [x])[i]) != key((s + [x])[j]) {
      if j == |s| {
        assert (s + [x])[i] == s[i];
      } else {
        assert (s + [x])[i] == s[i] && (s + [x])[j] == s[j];
      }
    }
  }
}
