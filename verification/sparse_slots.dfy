/**
 * The integer-keyed sparse array the landmark store keeps its faces in:
 * a strictly increasing key array beside a value array of the same length
 * (the representation of android.util.SparseArray). `SlotMap` is the map
 * such a pair stands for.
 */
module SparseSlots {

  ghost predicate Increasing(keys: seq<int>) {
    forall i, j :: 0 <= i < j < |keys| ==> keys[i] < keys[j]
  }

  /** Position of the first occurrence of `k`. */
  function IndexOf(keys: seq<int>, k: int): (i: nat)
    requires k in keys
    ensures i < |keys| && keys[i] == k
  {
    if keys[0] == k then 0 else 1 + IndexOf(keys[1..], k)
  }

  /** The map a key array and a value array stand for. */
  function SlotMap<V>(keys: seq<int>, vals: seq<V>): (m: map<int, V>)
    requires |keys| == |vals|
    ensures m.Keys == set k | k in keys
  {
    map k | k in keys :: vals[IndexOf(keys, k)]
  }

  /** In an increasing key array a key occurs once, so it finds its own value. */
  lemma SlotMapAt<V>(keys: seq<int>, vals: seq<V>, i: nat)
    requires |keys| == |vals| && Increasing(keys) && i < |keys|
    ensures keys[i] in SlotMap(keys, vals) && SlotMap(keys, vals)[keys[i]] == vals[i]
  {
  }

  /** Every value of the map is one of the stored values. */
  lemma SlotMapValue<V>(keys: seq<int>, vals: seq<V>, k: int)
    requires |keys| == |vals| && k in SlotMap(keys, vals)
    ensures SlotMap(keys, vals)[k] in vals
  {
    assert SlotMap(keys, vals)[k] == vals[IndexOf(keys, k)];
  }

  /** An increasing key array has as many distinct keys as entries. */
  lemma {:induction false} DistinctCount(keys: seq<int>)
    requires Increasing(keys)
    ensures |set k | k in keys| == |keys|
  {
    if keys != [] {
      var front := keys[..|keys| - 1];
      var last := keys[|keys| - 1];
      assert Increasing(front);
      DistinctCount(front);
      assert (set k | k in keys) == (set k | k in front) + {last};
      forall i | 0 <= i < |front| ensures front[i] != last {
        assert keys[i] < keys[|keys| - 1];
      }
    }
  }

  lemma SlotMapSize<V>(keys: seq<int>, vals: seq<V>)
    requires |keys| == |vals| && Increasing(keys)
    ensures |SlotMap(keys, vals)| == |keys|
  {
    DistinctCount(keys);
    assert SlotMap(keys, vals).Keys == set k | k in keys;
  }

  /**
   * `m'` is part of `m`, and every key `m` has beyond `m'` is larger than
   * all keys of `m'`.
   */
  ghost predicate SmallestPart<V>(m: map<int, V>, m': map<int, V>) {
    && (forall k :: k in m' ==> k in m && m'[k] == m[k])
    && (forall k, d :: k in m' && d in m && d !in m' ==> k < d)
  }

  /**
   * Keeping the first `n` entries keeps the `n` smallest keys with their
   * values and drops only keys larger than every kept one.
   */
  lemma SlotMapPrefix<V>(keys: seq<int>, vals: seq<V>, n: nat)
    requires |keys| == |vals| && Increasing(keys) && n <= |keys|
    ensures Increasing(keys[..n])
    ensures |SlotMap(keys[..n], vals[..n])| == n
    ensures SmallestPart(SlotMap(keys, vals), SlotMap(keys[..n], vals[..n]))
  {
    var m, m' := SlotMap(keys, vals), SlotMap(keys[..n], vals[..n]);
    SlotMapSize(keys[..n], vals[..n]);
    forall k | k in m' ensures k in m && m'[k] == m[k] {
      var i := IndexOf(keys[..n], k);
      SlotMapAt(keys[..n], vals[..n], i);
      SlotMapAt(keys, vals, i);
    }
    forall k, d | k in m' && d in m && d !in m' ensures k < d {
      PrefixBelow(keys, n, k, d);
    }
  }

  /** A key of the first `n` is smaller than a key not among them. */
  lemma PrefixBelow(keys: seq<int>, n: nat, k: int, d: int)
    requires Increasing(keys) && n <= |keys| && k in keys[..n] && d in keys && d !in keys[..n]
    ensures k < d
  {
    var i := IndexOf(keys[..n], k);
    var j := IndexOf(keys, d);
    forall t | 0 <= t < n ensures keys[t] != d {
      assert keys[..n][t] == keys[t];
    }
    assert keys[i] < keys[j];
  }

  /** Overwriting the value at position `i` updates the map at `keys[i]` only. */
  lemma SlotMapReplace<V>(keys: seq<int>, vals: seq<V>, i: nat, v: V)
    requires |keys| == |vals| && Increasing(keys) && i < |keys|
    ensures SlotMap(keys, vals[i := v]) == SlotMap(keys, vals)[keys[i] := v]
  {
    var m, m' := SlotMap(keys, vals), SlotMap(keys, vals[i := v]);
    forall k | k in m'
      ensures m'[k] == m[keys[i] := v][k]
    {
      var j := IndexOf(keys, k);
      SlotMapAt(keys, vals[i := v], j);
      SlotMapAt(keys, vals, j);
    }
    assert m'.Keys == m[keys[i] := v].Keys;
  }

  /** `s` with `x` inserted before position `i`. */
  function InsertAt<T>(s: seq<T>, i: nat, x: T): (r: seq<T>)
    requires i <= |s|
    ensures |r| == |s| + 1 && r[i] == x
    ensures forall j :: 0 <= j < i ==> r[j] == s[j]
    ensures forall j :: i < j < |r| ==> r[j] == s[j - 1]
  {
    s[..i] + [x] + s[i..]
  }

  /** A key inserted where it is larger than all before and smaller than all after keeps the keys increasing. */
  lemma InsertIncreasing(keys: seq<int>, lo: nat, k: int)
    requires Increasing(keys) && lo <= |keys|
    requires forall j :: 0 <= j < lo ==> keys[j] < k
    requires forall j :: lo <= j < |keys| ==> k < keys[j]
    ensures Increasing(InsertAt(keys, lo, k))
  {
    var keys' := InsertAt(keys, lo, k);
    forall i, j | 0 <= i < j < |keys'| ensures keys'[i] < keys'[j] {
      if j < lo {
      } else if j == lo {
      } else if i < lo {
        assert keys'[j] == keys[j - 1];
      } else if i == lo {
        assert keys'[j] == keys[j - 1];
      } else {
        assert keys'[i] == keys[i - 1] && keys'[j] == keys[j - 1];
      }
    }
  }

  /**
   * Inserting a new key at the position that keeps the keys increasing
   * adds exactly that key to the map.
   */
  lemma SlotMapInsert<V>(keys: seq<int>, vals: seq<V>, lo: nat, k: int, v: V)
    requires |keys| == |vals| && Increasing(keys) && lo <= |keys|
    requires forall j :: 0 <= j < lo ==> keys[j] < k
    requires forall j :: lo <= j < |keys| ==> k < keys[j]
    ensures Increasing(InsertAt(keys, lo, k))
    ensures SlotMap(InsertAt(keys, lo, k), InsertAt(vals, lo, v)) == SlotMap(keys, vals)[k := v]
  {
    InsertIncreasing(keys, lo, k);
    var m, m' := SlotMap(keys, vals), SlotMap(InsertAt(keys, lo, k), InsertAt(vals, lo, v));
    forall x | x in m' ensures x in m[k := v] && m'[x] == m[k := v][x] {
      InsertEntry(keys, vals, lo, k, v, x);
    }
    forall x | x in m[k := v] ensures x in m' {
      InsertKey(keys, lo, k, x);
    }
  }

  /** An entry after the insertion is the new one or an old one. */
  lemma InsertEntry<V>(keys: seq<int>, vals: seq<V>, lo: nat, k: int, v: V, x: int)
    requires |keys| == |vals| && Increasing(keys) && lo <= |keys|
    requires Increasing(InsertAt(keys, lo, k))
    requires x in SlotMap(InsertAt(keys, lo, k), InsertAt(vals, lo, v))
    ensures x in SlotMap(keys, vals)[k := v]
    ensures SlotMap(InsertAt(keys, lo, k), InsertAt(vals, lo, v))[x] == SlotMap(keys, vals)[k := v][x]
  {
    var keys', vals' := InsertAt(keys, lo, k), InsertAt(vals, lo, v);
    var j := IndexOf(keys', x);
    SlotMapAt(keys', vals', j);
    if j != lo {
      var i := if j < lo then j else j - 1;
      InsertShifted(keys, vals, lo, k, v, j, i);
      SlotMapAt(keys, vals, i);
    }
  }

  /** Position `j` after the insertion, other than `lo`, holds the old entry `i`. */
  lemma InsertShifted<V>(keys: seq<int>, vals: seq<V>, lo: nat, k: int, v: V, j: nat, i: nat)
    requires |keys| == |vals| && lo <= |keys| && j <= |keys| && j != lo
    requires Increasing(InsertAt(keys, lo, k))
    requires i == if j < lo then j else j - 1
    ensures i < |keys|
    ensures InsertAt(keys, lo, k)[j] == keys[i] && InsertAt(vals, lo, v)[j] == vals[i]
    ensures keys[i] != k
  {
    var keys' := InsertAt(keys, lo, k);
    assert keys'[lo] == k;
  }

  /** Every old key and the new key are keys after the insertion. */
  lemma InsertKey(keys: seq<int>, lo: nat, k: int, x: int)
    requires lo <= |keys| && (x in keys || x == k)
    ensures x in InsertAt(keys, lo, k)
  {
    var keys' := InsertAt(keys, lo, k);
    if x != k {
      var j := IndexOf(keys, x);
      if j < lo {
        assert keys'[j] == x;
      } else {
        assert keys'[j + 1] == x;
      }
    } else {
      assert keys'[lo] == k;
    }
  }

  /**
   * Binary search over the increasing key array (the lookup SparseArray's
   * `get` and `put` perform): either the position of `k`, or the position
   * where `k` would have to be inserted.
   */
  method BinarySearch(keys: seq<int>, k: int) returns (i: nat, found: bool)
    requires Increasing(keys)
    ensures i <= |keys|
    ensures found <==> k in keys
    ensures found ==> i < |keys| && keys[i] == k
    ensures !found ==> forall j :: 0 <= j < i ==> keys[j] < k
    ensures !found ==> forall j :: i <= j < |keys| ==> k < keys[j]
  {
    var lo, hi := 0, |keys|;
    while lo < hi
      invariant 0 <= lo <= hi <= |keys|
      invariant forall j :: 0 <= j < lo ==> keys[j] < k
      invariant forall j :: hi <= j < |keys| ==> k < keys[j]
    {
      var mid := (lo + hi) / 2;
      if keys[mid] < k {
        lo := mid + 1;
      } else if k < keys[mid] {
        hi := mid;
      } else {
        return mid, true;
      }
    }
    return lo, false;
  }
}
