/** Sums over the values of a finite map, used to compare a counter with the
    structures it counts. */
module Sums {

  ghost function AnyKey(m: map<string, int>): (k: string)
    requires |m| > 0
    ensures k in m
  {
    var k :| k in m.Keys;
    k
  }

  function Without(m: map<string, int>, k: string): (r: map<string, int>)
    ensures r.Keys == m.Keys - {k}
    ensures k in m ==> |r| == |m| - 1
  {
    var r := m - {k};
    assert r.Keys == m.Keys - {k};
    r
  }

  ghost function Total(m: map<string, int>): int
    decreases |m|
  {
    if |m| == 0 then 0 else m[AnyKey(m)] + Total(Without(m, AnyKey(m)))
  }

  /** Any key can be split off first. */
  lemma {:induction false} TotalSplit(m: map<string, int>, k: string)
    requires k in m
    ensures Total(m) == m[k] + Total(Without(m, k))
    decreases |m|
  {
    var c := AnyKey(m);
    if c != k {
      TotalSplit(Without(m, c), k);
      TotalSplit(Without(m, k), c);
      assert Without(Without(m, c), k) == Without(Without(m, k), c);
    }
  }

  lemma TotalUpdate(m: map<string, int>, k: string, v: int)
    ensures Total(m[k := v]) == Total(m) + v - (if k in m then m[k] else 0)
  {
    TotalSplit(m[k := v], k);
    assert Without(m[k := v], k) == Without(m, k);
    if k in m {
      TotalSplit(m, k);
    } else {
      assert Without(m, k) == m;
    }
  }

  lemma TotalRemove(m: map<string, int>, k: string)
    ensures Total(m - {k}) == Total(m) - (if k in m then m[k] else 0)
  {
    if k in m {
      TotalSplit(m, k);
    } else {
      assert m - {k} == m;
    }
  }

  ghost function Lengths<T>(m: map<string, seq<T>>): map<string, int> {
    map k | k in m :: |m[k]|
  }

  /** How many elements the slices of a map hold together. */
  ghost function TotalLength<T>(m: map<string, seq<T>>): int {
    Total(Lengths(m))
  }

  lemma TotalLengthUpdate<T>(m: map<string, seq<T>>, k: string, v: seq<T>)
    ensures TotalLength(m[k := v]) == TotalLength(m) + |v| - (if k in m then |m[k]| else 0)
  {
    hide Total;
    assert Lengths(m[k := v]) == Lengths(m)[k := |v|];
    TotalUpdate(Lengths(m), k, |v|);
  }

  lemma LengthsRemove<T>(m: map<string, seq<T>>, k: string)
    ensures Lengths(m - {k}) == Lengths(m) - {k}
  {
  }

  lemma TotalLengthRemove<T>(m: map<string, seq<T>>, k: string)
    ensures TotalLength(m - {k}) == TotalLength(m) - (if k in m then |m[k]| else 0)
  {
    hide Total;
    LengthsRemove(m, k);
    TotalRemove(Lengths(m), k);
  }
}
