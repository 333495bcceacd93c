/** The key-value store as an ordered map: prefix scans in ascending byte order. */
module OrderedStore {
  import opened Base
  import opened Types
  import opened Keys

  ghost predicate Ascends(ks: seq<bytes>) {
    forall i, j :: 0 <= i < j < |ks| ==> Before(ks[i], ks[j])
  }

  ghost predicate IsLeast(k: bytes, ks: set<bytes>) {
    k in ks && forall j :: j in ks ==> j == k || Before(k, j)
  }

  lemma {:induction false} LeastExists(ks: set<bytes>)
    requires ks != {}
    ensures exists k :: IsLeast(k, ks)
    decreases |ks|
  {
    var x :| x in ks;
    var rest := ks - {x};
    if rest == {} {
      assert ks == {x};
      assert IsLeast(x, ks);
    } else {
      LeastExists(rest);
      var y :| IsLeast(y, rest);
      BeforeTotal(x, y);
      if Before(x, y) {
        forall j | j in ks ensures j == x || Before(x, j) {
          if j != x && j != y { BeforeTransitive(x, y, j); }
        }
        assert IsLeast(x, ks);
      } else {
        assert IsLeast(y, ks);
      }
    }
  }

  lemma LeastUnique(a: bytes, b: bytes, ks: set<bytes>)
    requires IsLeast(a, ks) && IsLeast(b, ks)
    ensures a == b
  {
    if a != b {
      BeforeTransitive(a, b, a);
      BeforeIrreflexive(a);
    }
  }

  ghost function Least(ks: set<bytes>): (k: bytes)
    requires ks != {}
    ensures IsLeast(k, ks)
  {
    LeastExists(ks);
    var k :| IsLeast(k, ks);
    k
  }

  /** The keys in the order an iterator visits them. */
  ghost function Ascending(ks: set<bytes>): (r: seq<bytes>)
    ensures forall k :: k in r <==> k in ks
    ensures Ascends(r)
    ensures |r| == |ks|
    decreases |ks|
  {
    if ks == {} then []
    else
      var k := Least(ks);
      [k] + Ascending(ks - {k})
  }

  /** There is only one ascending list of a set of keys. */
  lemma {:induction false} AscendingUnique(r: seq<bytes>, ks: set<bytes>)
    requires Ascends(r) && forall k :: k in r <==> k in ks
    ensures r == Ascending(ks)
    decreases |r|
  {
    if r == [] {
      assert ks == {};
    } else {
      HeadIsLeast(r, ks);
      LeastUnique(r[0], Least(ks), ks);
      TailMembers(r);
      AscendingUnique(r[1..], ks - {r[0]});
    }
  }

  lemma HeadIsLeast(r: seq<bytes>, ks: set<bytes>)
    requires r != [] && Ascends(r) && forall k :: k in r <==> k in ks
    ensures r[0] in ks && forall j :: j in ks ==> j == r[0] || Before(r[0], j)
  {
    assert r[0] in r;
    forall j | j in ks ensures j == r[0] || Before(r[0], j) {
      var i :| 0 <= i < |r| && r[i] == j;
    }
  }

  lemma TailMembers(r: seq<bytes>)
    requires r != [] && Ascends(r)
    ensures forall k :: k in r[1..] <==> k in r && k != r[0]
  {
    forall k | k in r[1..] ensures k != r[0] {
      var i :| 0 <= i < |r[1..]| && r[1..][i] == k;
      assert Before(r[0], r[i + 1]);
      BeforeIrreflexive(r[0]);
    }
  }

  ghost function PrefixKeys(s: Store, p: bytes): (r: set<bytes>) {
    set k | k in s && p <= k
  }

  /** What Iterator(nil, nil) over a prefix store visits, as full keys. */
  ghost function Scan(s: Store, p: bytes): (r: seq<bytes>) {
    Ascending(PrefixKeys(s, p))
  }

  /** Keeps the keys of one length: `p` followed by n bytes. */
  ghost function OfLength(ks: seq<bytes>, n: nat): (r: seq<bytes>) {
    if ks == [] then [] else (if |ks[0]| == n then [ks[0]] else []) + OfLength(ks[1..], n)
  }

  lemma {:induction false} OfLengthMembers(ks: seq<bytes>, n: nat)
    ensures forall k :: k in OfLength(ks, n) <==> k in ks && |k| == n
  {
    if ks != [] {
      OfLengthMembers(ks[1..], n);
      assert forall k :: k in ks <==> k == ks[0] || k in ks[1..];
    }
  }

  lemma {:induction false} OfLengthAscends(ks: seq<bytes>, n: nat)
    requires Ascends(ks)
    ensures Ascends(OfLength(ks, n))
  {
    if ks != [] {
      OfLengthAscends(ks[1..], n);
      OfLengthMembers(ks[1..], n);
      var r := OfLength(ks, n);
      forall i, j | 0 <= i < j < |r| ensures Before(r[i], r[j]) {
        if i == 0 && |ks[0]| == n {
          assert r[j] in OfLength(ks[1..], n);
          var x :| 0 <= x < |ks[1..]| && ks[1..][x] == r[j];
          assert Before(ks[0], ks[x + 1]);
        }
      }
    }
  }

  /** Filtering a scan by length lists exactly the keys of that length, still in order. */
  lemma OfLengthIsScan(s: Store, p: bytes, n: nat)
    ensures OfLength(Scan(s, p), n) == Ascending(set k | k in s && p <= k && |k| == n)
  {
    OfLengthMembers(Scan(s, p), n);
    OfLengthAscends(Scan(s, p), n);
    AscendingUnique(OfLength(Scan(s, p), n), set k | k in s && p <= k && |k| == n);
  }

  lemma {:induction false} OfLengthConcat(a: seq<bytes>, b: seq<bytes>, n: nat)
    ensures OfLength(a + b, n) == OfLength(a, n) + OfLength(b, n)
  {
    if a == [] {
      assert a + b == b;
    } else {
      assert (a + b)[1..] == a[1..] + b;
      OfLengthConcat(a[1..], b, n);
    }
  }

  /** The key-value store of the module, as the keeper opens it. */
  class KVStore {
    var data: Store

    constructor (s: Store)
      ensures data == s
    {
      data := s;
    }

    method Set(k: bytes, v: Value)
      modifies this
      ensures data == old(data)[k := v]
    {
      data := data[k := v];
    }

    method Delete(k: bytes)
      modifies this
      ensures data == old(data) - {k}
    {
      data := data - {k};
    }

    /** All keys under a prefix in ascending order, found by repeated selection of the least one. */
    method Iterate(p: bytes) returns (ks: seq<bytes>)
      ensures ks == Scan(data, p)
    {
      var left := set k | k in data && p <= k;
      ks := [];
      while left != {}
        invariant left <= PrefixKeys(data, p)
        invariant Ascending(PrefixKeys(data, p)) == ks + Ascending(left)
        decreases |left|
      {
        var k := SelectLeast(left);
        LeastUnique(k, Least(left), left);
        Assoc(ks, [k], Ascending(left - {k}));
        ks := ks + [k];
        left := left - {k};
      }
    }

    static method SelectLeast(ks: set<bytes>) returns (k: bytes)
      requires ks != {}
      ensures IsLeast(k, ks)
    {
      k :| k in ks;
      var left := ks - {k};
      while left != {}
        invariant k in ks && left <= ks - {k}
        invariant forall j :: j in ks - left ==> j == k || Before(k, j)
        decreases |left|
      {
        var j :| j in left;
        BeforeTotal(j, k);
        if Before(j, k) {
          forall x | x in ks - left && x != k ensures Before(j, x) { BeforeTransitive(j, k, x); }
          k := j;
        }
        left := left - {j};
      }
    }
  }
}
