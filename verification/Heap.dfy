/** The priority queues of the server: Go's container/heap run on a slice whose
    Less compares one numeric key (CreateIndex for evaluations, the enqueue time
    for plans). Push sifts the new last element up; Pop swaps the root with the
    last slot, sifts the new root down and takes the last slot off. */
module Heap {

  function Parent(j: nat): (i: nat)
    ensures 0 < j ==> i < j
  {
    if j == 0 then 0 else (j - 1) / 2
  }

  function Swap<T>(s: seq<T>, i: nat, j: nat): (r: seq<T>)
    requires i < |s| && j < |s|
    ensures |r| == |s| && r[i] == s[j] && r[j] == s[i]
    ensures forall k :: 0 <= k < |s| && k != i && k != j ==> r[k] == s[k]
    ensures multiset(r) == multiset(s)
  {
    SwapPermutes(s, i, j);
    s[i := s[j]][j := s[i]]
  }

  lemma SwapPermutes<T>(s: seq<T>, i: nat, j: nat)
    requires i < |s| && j < |s|
    ensures multiset(s[i := s[j]][j := s[i]]) == multiset(s)
  {
    var t := s[i := s[j]];
    assert multiset(t) == multiset(s) - multiset{s[i]} + multiset{s[j]};
    assert multiset(t[j := s[i]]) == multiset(t) - multiset{t[j]} + multiset{s[i]};
  }

  /** Sift the element at j towards the root while it is smaller than its parent. */
  function Up<T>(key: T -> int, s: seq<T>, j: nat): (r: seq<T>)
    requires j < |s|
    ensures multiset(r) == multiset(s) && |r| == |s|
    decreases j
  {
    var i := Parent(j);
    if i == j || !(key(s[j]) < key(s[i])) then s else Up(key, Swap(s, i, j), i)
  }

  /** The smaller child of i, as Down picks it. */
  function SmallerChild<T>(key: T -> int, s: seq<T>, i: nat, n: nat): (j: nat)
    requires 2 * i + 1 < n <= |s|
    ensures i < j < n && Parent(j) == i
    ensures forall k :: 0 < k < n && Parent(k) == i ==> key(s[j]) <= key(s[k])
  {
    var j1 := 2 * i + 1;
    if j1 + 1 < n && key(s[j1 + 1]) < key(s[j1]) then j1 + 1 else j1
  }

  /** Sift the element at i towards the leaves of the first n slots. */
  function Down<T>(key: T -> int, s: seq<T>, i: nat, n: nat): (r: seq<T>)
    requires i < |s| && n <= |s|
    ensures multiset(r) == multiset(s) && |r| == |s|
    ensures forall k :: n <= k < |s| ==> r[k] == s[k]
    decreases n - i
  {
    if 2 * i + 1 >= n then s
    else
      var j := SmallerChild(key, s, i, n);
      if !(key(s[j]) < key(s[i])) then s else Down(key, Swap(s, i, j), j, n)
  }

  function Push<T>(key: T -> int, s: seq<T>, x: T): (r: seq<T>)
    ensures multiset(r) == multiset(s) + multiset{x}
    ensures |r| == |s| + 1
  {
    Up(key, s + [x], |s|)
  }

  function Pop<T>(key: T -> int, s: seq<T>): (r: (T, seq<T>))
    requires |s| > 0
    ensures multiset(s) == multiset(r.1) + multiset{r.0}
    ensures |r.1| == |s| - 1
    ensures r.0 == s[0]
  {
    var n := |s| - 1;
    var t := Down(key, Swap(s, 0, n), 0, n);
    assert t == t[..n] + [t[n]];
    (t[n], t[..n])
  }

  /** Heap order: no element of the first n slots is smaller than its parent. */
  ghost predicate Ordered<T>(key: T -> int, s: seq<T>, n: nat)
    requires n <= |s|
  {
    forall j {:trigger Parent(j)} :: 0 < j < n ==> key(s[Parent(j)]) <= key(s[j])
  }

  ghost predicate IsHeap<T>(key: T -> int, s: seq<T>) {
    Ordered(key, s, |s|)
  }

  /** In a heap the root is a minimum. */
  lemma {:induction false} RootIsMin<T>(key: T -> int, s: seq<T>, k: nat)
    requires IsHeap(key, s) && k < |s|
    ensures key(s[0]) <= key(s[k])
    decreases k
  {
    if k > 0 {
      RootIsMin(key, s, Parent(k));
    }
  }

  /** Ordered everywhere except possibly between j and its parent; the children of j are
      still above j's parent. */
  ghost predicate OrderedButUp<T>(key: T -> int, s: seq<T>, j: nat)
    requires j < |s|
  {
    && (forall k :: 0 < k < |s| && k != j ==> key(s[Parent(k)]) <= key(s[k]))
    && (forall k :: 0 < k < |s| && Parent(k) == j ==> key(s[Parent(j)]) <= key(s[k]))
  }

  lemma {:induction false} UpRestores<T>(key: T -> int, s: seq<T>, j: nat)
    requires j < |s| && OrderedButUp(key, s, j)
    ensures IsHeap(key, Up(key, s, j))
    decreases j
  {
    var i := Parent(j);
    if i != j && key(s[j]) < key(s[i]) {
      UpRestores(key, Swap(s, i, j), i);
    }
  }

  /** Ordered everywhere in the first n slots except possibly between i and its children;
      those children are still above i's parent. */
  ghost predicate OrderedButDown<T>(key: T -> int, s: seq<T>, i: nat, n: nat)
    requires i < |s| && n <= |s|
  {
    && (forall k :: 0 < k < n && Parent(k) != i ==> key(s[Parent(k)]) <= key(s[k]))
    && (0 < i ==> forall k :: 0 < k < n && Parent(k) == i ==> key(s[Parent(i)]) <= key(s[k]))
  }

  /** One step of Down moves the disorder from i to the child it swapped with. */
  lemma DownStep<T>(key: T -> int, s: seq<T>, i: nat, n: nat, j: nat)
    requires i < j < n <= |s| && Parent(j) == i && OrderedButDown(key, s, i, n)
    requires forall k :: 0 < k < n && Parent(k) == i ==> key(s[j]) <= key(s[k])
    requires key(s[j]) < key(s[i])
    ensures OrderedButDown(key, Swap(s, i, j), j, n)
  {
    var t := Swap(s, i, j);
    forall k | 0 < k < n && Parent(k) != j
      ensures key(t[Parent(k)]) <= key(t[k])
    {
      if k == i {
        assert key(s[Parent(i)]) <= key(s[j]);
      } else if Parent(k) == i {
        assert t[i] == s[j];
      } else {
        assert t[k] == s[k] && t[Parent(k)] == s[Parent(k)];
      }
    }
    forall k | 0 < k < n && Parent(k) == j
      ensures key(t[Parent(j)]) <= key(t[k])
    {
      assert t[k] == s[k] && key(s[Parent(k)]) <= key(s[k]);
    }
  }

  lemma {:induction false} DownRestores<T>(key: T -> int, s: seq<T>, i: nat, n: nat)
    requires i < |s| && n <= |s| && OrderedButDown(key, s, i, n)
    ensures Ordered(key, Down(key, s, i, n), n)
    decreases n - i
  {
    if 2 * i + 1 >= n {
      assert forall k :: 0 < k < n ==> Parent(k) != i;
    } else {
      var j := SmallerChild(key, s, i, n);
      if key(s[j]) < key(s[i]) {
        DownStep(key, s, i, n, j);
        DownRestores(key, Swap(s, i, j), j, n);
      }
    }
  }

  lemma PushKeepsHeap<T>(key: T -> int, s: seq<T>, x: T)
    requires IsHeap(key, s)
    ensures IsHeap(key, Push(key, s, x))
  {
    UpRestores(key, s + [x], |s|);
  }

  lemma PopKeepsHeap<T>(key: T -> int, s: seq<T>)
    requires IsHeap(key, s) && |s| > 0
    ensures IsHeap(key, Pop(key, s).1)
  {
    hide Down;
    var n := |s| - 1;
    if n > 0 {
      DownRestores(key, Swap(s, 0, n), 0, n);
    }
  }

  /** Pop takes a minimum and leaves a heap. */
  lemma PopTakesMin<T>(key: T -> int, s: seq<T>)
    requires IsHeap(key, s) && |s| > 0
    ensures IsHeap(key, Pop(key, s).1)
    ensures forall x :: x in s ==> key(Pop(key, s).0) <= key(x)
  {
    forall x | x in s
      ensures key(s[0]) <= key(x)
    {
      var k :| 0 <= k < |s| && s[k] == x;
      RootIsMin(key, s, k);
    }
    PopKeepsHeap(key, s);
    hide IsHeap, Pop;
  }

  // ---- heaps of what stands for the elements ---------------------------------------

  function Mapped<T, U>(f: T -> U, s: seq<T>): (r: seq<U>)
    ensures |r| == |s| && forall i :: 0 <= i < |s| ==> r[i] == f(s[i])
  {
    seq(|s|, i requires 0 <= i < |s| => f(s[i]))
  }

  /** f keeps the keys of the elements. */
  ghost predicate SameKeys<T, U>(f: T -> U, key: T -> int, key': U -> int, s: seq<T>) {
    forall i :: 0 <= i < |s| ==> key'(f(s[i])) == key(s[i])
  }

  lemma SwapMapped<T, U>(f: T -> U, key: T -> int, key': U -> int, s: seq<T>, i: nat, j: nat)
    requires i < |s| && j < |s| && SameKeys(f, key, key', s)
    ensures Mapped(f, Swap(s, i, j)) == Swap(Mapped(f, s), i, j) && SameKeys(f, key, key', Swap(s, i, j))
  {
  }

  lemma {:induction false} UpMapped<T, U>(f: T -> U, key: T -> int, key': U -> int, s: seq<T>, j: nat)
    requires j < |s| && SameKeys(f, key, key', s)
    ensures Mapped(f, Up(key, s, j)) == Up(key', Mapped(f, s), j)
    decreases j
  {
    hide Swap;
    var i := Parent(j);
    if i != j && key(s[j]) < key(s[i]) {
      SwapMapped(f, key, key', s, i, j);
      UpMapped(f, key, key', Swap(s, i, j), i);
    }
  }

  lemma {:induction false} DownMapped<T, U>(f: T -> U, key: T -> int, key': U -> int, s: seq<T>, i: nat, n: nat)
    requires i < |s| && n <= |s| && SameKeys(f, key, key', s)
    ensures Mapped(f, Down(key, s, i, n)) == Down(key', Mapped(f, s), i, n)
    decreases n - i
  {
    hide Swap;
    if 2 * i + 1 < n {
      var j := SmallerChild(key, s, i, n);
      assert SmallerChild(key', Mapped(f, s), i, n) == j;
      if key(s[j]) < key(s[i]) {
        SwapMapped(f, key, key', s, i, j);
        DownMapped(f, key, key', Swap(s, i, j), j, n);
      }
    }
  }

  lemma PushMapped<T, U>(f: T -> U, key: T -> int, key': U -> int, s: seq<T>, x: T)
    requires SameKeys(f, key, key', s + [x])
    ensures Mapped(f, Push(key, s, x)) == Push(key', Mapped(f, s), f(x))
  {
    assert Mapped(f, s + [x]) == Mapped(f, s) + [f(x)];
    UpMapped(f, key, key', s + [x], |s|);
  }

  lemma PopMapped<T, U>(f: T -> U, key: T -> int, key': U -> int, s: seq<T>)
    requires |s| > 0 && SameKeys(f, key, key', s)
    ensures f(Pop(key, s).0) == Pop(key', Mapped(f, s)).0
    ensures Mapped(f, Pop(key, s).1) == Pop(key', Mapped(f, s)).1
  {
    hide Down, Swap;
    var n := |s| - 1;
    SwapMapped(f, key, key', s, 0, n);
    DownMapped(f, key, key', Swap(s, 0, n), 0, n);
    var t := Down(key, Swap(s, 0, n), 0, n);
    assert Mapped(f, t[..n]) == Mapped(f, t)[..n];
  }
}
