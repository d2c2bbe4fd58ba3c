/** Removing allocations from a list in place, and the overlay of a plan on the allocations
    that a node already has. */
module Allocations {
  import opened Plans

  /** A slot of a slice of allocation pointers. */
  datatype Slot = Nil | Some(alloc: Allocation)

  predicate Survives(slot: Slot, gone: set<string>) {
    slot.Some? && slot.alloc.id !in gone
  }

  /** The surviving slots, in order. */
  function Survivors(s: seq<Slot>, gone: set<string>): seq<Slot> {
    if s == [] then []
    else (if Survives(s[0], gone) then [s[0]] else []) + Survivors(s[1..], gone)
  }

  lemma {:induction false} SurvivorsHold(s: seq<Slot>, gone: set<string>, x: Slot)
    ensures x in Survivors(s, gone) <==> x in s && Survives(x, gone)
    decreases |s|
  {
    if s != [] {
      SurvivorsHold(s[1..], gone, x);
    }
  }

  /** A slot survives as often as it was there, or not at all. */
  lemma {:induction false} SurvivorsCount(s: seq<Slot>, gone: set<string>, a: Allocation)
    ensures multiset(Survivors(s, gone))[Some(a)] == if a.id in gone then 0 else multiset(s)[Some(a)]
    decreases |s|
  {
    if s != [] {
      SurvivorsCount(s[1..], gone, a);
      assert s == [s[0]] + s[1..];
    }
  }

  lemma {:induction false} SurvivorsConcat(s: seq<Slot>, t: seq<Slot>, gone: set<string>)
    ensures Survivors(s + t, gone) == Survivors(s, gone) + Survivors(t, gone)
    decreases |s|
  {
    hide Survives;
    if s == [] {
      assert s + t == t;
    } else {
      var first := if Survives(s[0], gone) then [s[0]] else [];
      assert (s + t)[1..] == s[1..] + t && (s + t)[0] == s[0];
      SurvivorsConcat(s[1..], t, gone);
      Associative(first, Survivors(s[1..], gone), Survivors(t, gone));
    }
  }

  lemma Associative<T>(a: seq<T>, b: seq<T>, c: seq<T>)
    ensures a + (b + c) == a + b + c
  {
  }

  lemma SurvivorsOne(x: Slot, gone: set<string>)
    ensures Survivors([x], gone) == if Survives(x, gone) then [x] else []
  {
    assert [x][1..] == [];
  }

  /** Overwriting a removed first slot with the last one loses no survivor. */
  lemma SwapDelete(x: Slot, mid: seq<Slot>, y: Slot, gone: set<string>)
    requires !Survives(x, gone)
    ensures multiset(Survivors([y] + mid, gone)) == multiset(Survivors([x] + mid + [y], gone))
  {
    hide Survivors;
    SurvivorsConcat([x] + mid, [y], gone);
    SurvivorsConcat([x], mid, gone);
    SurvivorsConcat([y], mid, gone);
    SurvivorsOne(x, gone);
  }

  function Ids(s: seq<Allocation>): (ids: set<string>)
    ensures forall a :: a in s ==> a.id in ids
  {
    set a | a in s :: a.id
  }

  method RemoveSet(remove: seq<Allocation>) returns (gone: set<string>)
    ensures gone == Ids(remove)
  {
    gone := {};
    for i := 0 to |remove|
      invariant gone == Ids(remove[..i])
    {
      assert remove[..i + 1] == remove[..i] + [remove[i]];
      gone := gone + {remove[i].id};
    }
    assert remove[..|remove|] == remove;
  }

  /** Up to i everything survives, from n on everything is cleared, and no survivor is lost. */
  ghost predicate Progress(s: seq<Slot>, i: nat, n: nat, gone: set<string>, all: multiset<Slot>) {
    && i <= n <= |s|
    && (forall k :: 0 <= k < i ==> Survives(s[k], gone))
    && (forall k :: i <= k < n ==> s[k].Some?)
    && (forall k :: n <= k < |s| ==> s[k].Nil?)
    && multiset(s[..i]) + multiset(Survivors(s[i..n], gone)) == all
  }

  lemma ProgressDelete(s: seq<Slot>, i: nat, n: nat, gone: set<string>, all: multiset<Slot>)
    requires Progress(s, i, n, gone, all) && i < n && !Survives(s[i], gone)
    ensures Progress(s[i := s[n - 1]][n - 1 := Nil], i, n - 1, gone, all)
  {
    hide Survivors;
    var s' := s[i := s[n - 1]][n - 1 := Nil];
    assert s'[..i] == s[..i];
    if i < n - 1 {
      var mid := s[i + 1..n - 1];
      assert s[i..n] == [s[i]] + mid + [s[n - 1]];
      assert s'[i..n - 1] == [s[n - 1]] + mid;
      SwapDelete(s[i], mid, s[n - 1], gone);
    } else {
      assert s[i..n] == [s[i]] && s'[i..n - 1] == [];
      SurvivorsOne(s[i], gone);
      SurvivorsNone(gone);
    }
  }

  lemma SurvivorsNone(gone: set<string>)
    ensures Survivors([], gone) == []
  {
  }

  lemma ProgressKeep(s: seq<Slot>, i: nat, n: nat, gone: set<string>, all: multiset<Slot>)
    requires Progress(s, i, n, gone, all) && i < n && Survives(s[i], gone)
    ensures Progress(s, i + 1, n, gone, all)
  {
    hide Survivors;
    assert s[..i + 1] == s[..i] + [s[i]];
    assert s[i..n] == [s[i]] + s[i + 1..n];
    SurvivorsConcat([s[i]], s[i + 1..n], gone);
    SurvivorsOne(s[i], gone);
  }

  lemma ProgressStart(s: seq<Slot>, gone: set<string>)
    requires forall k :: 0 <= k < |s| ==> s[k].Some?
    ensures Progress(s, 0, |s|, gone, multiset(Survivors(s, gone)))
  {
    assert s[0..|s|] == s;
  }

  lemma ProgressRange(s: seq<Slot>, i: nat, n: nat, gone: set<string>, all: multiset<Slot>)
    requires Progress(s, i, n, gone, all)
    ensures i <= n <= |s| && (i < n ==> s[i].Some?)
  {
  }

  lemma ProgressEnd(s: seq<Slot>, n: nat, gone: set<string>, all: multiset<Slot>)
    requires Progress(s, n, n, gone, all)
    ensures n <= |s| && multiset(s[..n]) == all
    ensures forall k :: 0 <= k < n ==> Survives(s[k], gone)
    ensures forall k :: n <= k < |s| ==> s[k].Nil?
  {
    assert s[n..n] == [];
  }

  /** Every allocation is left as often as it was there, or not at all if its ID is to be removed. */
  ghost predicate Removed(before: seq<Slot>, remove: seq<Allocation>, after: seq<Slot>) {
    forall a {:trigger multiset(after)[Some(a)]} ::
      multiset(after)[Some(a)] == if exists x :: x in remove && x.id == a.id then 0 else multiset(before)[Some(a)]
  }

  /** The first n slots are the survivors, in some order; the rest of the slice is cleared. */
  method RemoveAllocs(alloc: array<Slot>, remove: seq<Allocation>) returns (n: nat)
    requires forall k :: 0 <= k < alloc.Length ==> alloc[k].Some?
    modifies alloc
    ensures n <= alloc.Length
    ensures multiset(alloc[..n]) == multiset(Survivors(old(alloc[..]), Ids(remove)))
    ensures Removed(old(alloc[..]), remove, alloc[..n])
    ensures forall k :: 0 <= k < n ==> alloc[k].Some? && alloc[k].alloc.id !in Ids(remove)
    ensures forall k :: n <= k < alloc.Length ==> alloc[k].Nil?
  {
    hide Survivors, Progress;
    ghost var before := alloc[..];
    var gone := RemoveSet(remove);
    ghost var all := multiset(Survivors(alloc[..], gone));
    n := alloc.Length;
    var i := 0;
    ProgressStart(alloc[..], gone);
    while i < n
      invariant 0 <= i <= n <= alloc.Length
      invariant Progress(alloc[..], i, n, gone, all)
      decreases n - i
    {
      ghost var s := alloc[..];
      ProgressRange(s, i, n, gone, all);
      if alloc[i].alloc.id in gone {
        ProgressDelete(s, i, n, gone, all);
        var last := alloc[n - 1];
        alloc[i] := last;
        alloc[n - 1] := Nil;
        assert alloc[..] == s[i := s[n - 1]][n - 1 := Nil];
        n := n - 1;
      } else {
        ProgressKeep(s, i, n, gone, all);
        i := i + 1;
      }
    }
    ProgressEnd(alloc[..], n, gone, all);
    assert alloc[..][..n] == alloc[..n];
    forall a {:trigger multiset(alloc[..n])[Some(a)]}
      ensures multiset(alloc[..n])[Some(a)]
              == if exists x :: x in remove && x.id == a.id then 0 else multiset(before)[Some(a)]
    {
      SurvivorsCount(before, gone, a);
    }
    forall k | 0 <= k < n
      ensures alloc[k].Some? && alloc[k].alloc.id !in Ids(remove)
    {
      assert Survives(alloc[..][k], gone);
    }
    forall k | n <= k < alloc.Length
      ensures alloc[k].Nil?
    {
      assert alloc[..][k].Nil?;
    }
  }

  // ---- the overlay -----------------------------------------------------------------

  /** The allocations by ID, a later one over an earlier one. */
  function LastById(s: seq<Allocation>): map<string, Allocation> {
    if s == [] then map[] else LastById(s[..|s| - 1])[s[|s| - 1].id := s[|s| - 1]]
  }

  lemma {:induction false} LastByIdHolds(s: seq<Allocation>)
    ensures LastById(s).Keys == Ids(s)
    ensures forall id :: id in LastById(s) ==> LastById(s)[id].id == id && LastById(s)[id] in s
    decreases |s|
  {
    if s != [] {
      var n := |s| - 1;
      LastByIdHolds(s[..n]);
      assert s == s[..n] + [s[n]];
    }
  }

  lemma LastByIdNext(index: map<string, Allocation>, s: seq<Allocation>, i: nat)
    requires i < |s|
    ensures index + LastById(s[..i + 1]) == (index + LastById(s[..i]))[s[i].id := s[i]]
  {
    assert s[..i + 1][..i] == s[..i];
  }

  /** The last allocation of the list with an ID is the one found under it. */
  lemma {:induction false} LastByIdIsLast(s: seq<Allocation>, i: nat)
    requires i < |s| && forall j :: i < j < |s| ==> s[j].id != s[i].id
    ensures s[i].id in LastById(s) && LastById(s)[s[i].id] == s[i]
    decreases |s|
  {
    var n := |s| - 1;
    if i < n {
      assert s[..n][i] == s[i];
      LastByIdIsLast(s[..n], i);
    }
  }

  predicate DistinctIds(s: seq<Allocation>) {
    forall i, j :: 0 <= i < j < |s| ==> s[i].id != s[j].id
  }

  /** Each ID once: the planned allocation if one is planned, else a surviving existing one. */
  ghost predicate Overlays(existing: seq<Allocation>, evicted: seq<Allocation>, planned: seq<Allocation>, r: seq<Allocation>) {
    && DistinctIds(r)
    && (forall id :: id in Ids(r) <==> id in Ids(planned) || id in Ids(existing) - Ids(evicted))
    && (forall a :: a in r ==>
          if a.id in LastById(planned) then a == LastById(planned)[a.id] else a in existing && a.id !in Ids(evicted))
  }

  /** With distinct existing IDs the outcome is determined up to order. */
  lemma OverlayDetermined(existing: seq<Allocation>, evicted: seq<Allocation>, planned: seq<Allocation>,
                          r: seq<Allocation>, t: seq<Allocation>)
    requires DistinctIds(existing)
    requires Overlays(existing, evicted, planned, r) && Overlays(existing, evicted, planned, t)
    ensures multiset(r) == multiset(t)
  {
    forall a
      ensures a in r <==> a in t
    {
      if a in r {
        SameById(existing, evicted, planned, r, t, a);
      }
      if a in t {
        SameById(existing, evicted, planned, t, r, a);
      }
    }
    forall a
      ensures multiset(r)[a] == multiset(t)[a]
    {
      OnceById(r, a);
      OnceById(t, a);
    }
  }

  lemma SameById(existing: seq<Allocation>, evicted: seq<Allocation>, planned: seq<Allocation>,
                 r: seq<Allocation>, t: seq<Allocation>, a: Allocation)
    requires DistinctIds(existing) && a in r
    requires Overlays(existing, evicted, planned, r) && Overlays(existing, evicted, planned, t)
    ensures a in t
  {
    hide LastById;
    assert a.id in Ids(t);
    var b :| b in t && b.id == a.id;
    if a.id !in LastById(planned) {
      var i :| 0 <= i < |existing| && existing[i] == a;
      var j :| 0 <= j < |existing| && existing[j] == b;
    }
  }

  lemma {:induction false} OnceById(s: seq<Allocation>, a: Allocation)
    requires DistinctIds(s)
    ensures multiset(s)[a] == if a in s then 1 else 0
    decreases |s|
  {
    if s != [] {
      assert s == [s[0]] + s[1..];
      OnceById(s[1..], a);
    }
  }

  lemma SameSurvivors(before: seq<Slot>, existing: seq<Allocation>, gone: set<string>, after: seq<Slot>, a: Allocation)
    requires |before| == |existing| && forall i :: 0 <= i < |existing| ==> before[i] == Some(existing[i])
    requires multiset(after) == multiset(Survivors(before, gone))
    ensures Some(a) in after <==> a in existing && a.id !in gone
  {
    hide Survivors;
    SurvivorsHold(before, gone, Some(a));
    assert Some(a) in after <==> Some(a) in multiset(after);
    assert Some(a) in Survivors(before, gone) <==> Some(a) in multiset(Survivors(before, gone));
    assert a in existing ==> Some(a) in before;
  }

  lemma SameContents(slots: seq<Slot>, list: seq<Allocation>, a: Allocation)
    requires |slots| == |list| && forall k :: 0 <= k < |slots| ==> slots[k] == Some(list[k])
    ensures a in list <==> Some(a) in slots
  {
    if a in list {
      var k :| 0 <= k < |list| && list[k] == a;
      assert slots[k] == Some(a);
    }
  }

  /** The existing allocations that survive the planned evictions. */
  method SurvivingAllocs(existing: seq<Allocation>, evicted: seq<Allocation>) returns (proposed: seq<Allocation>)
    ensures forall a :: a in proposed <==> a in existing && a.id !in Ids(evicted)
  {
    if |evicted| == 0 {
      return existing;
    }
    hide Survivors, Removed;
    var slots := new Slot[|existing|](i requires 0 <= i < |existing| => Some(existing[i]));
    ghost var before := slots[..];
    var n := RemoveAllocs(slots, evicted);
    proposed := [];
    for i := 0 to n
      invariant |proposed| == i && forall k :: 0 <= k < i ==> slots[k] == Some(proposed[k])
    {
      proposed := proposed + [slots[i].alloc];
    }
    forall a
      ensures a in proposed <==> a in existing && a.id !in Ids(evicted)
    {
      SameSurvivors(before, existing, Ids(evicted), slots[..n], a);
      SameContents(slots[..n], proposed, a);
    }
  }

  /** The entries of an index that are no longer to come are listed, each once. */
  ghost predicate Listed(index: map<string, Allocation>, rest: set<string>, r: seq<Allocation>) {
    && DistinctIds(r)
    && (forall a :: a in r ==> a.id in index && a.id !in rest && a == index[a.id])
    && (forall id :: id in index && id !in rest ==> index[id] in r)
  }

  lemma ListOne(index: map<string, Allocation>, rest: set<string>, r: seq<Allocation>, id: string)
    requires Listed(index, rest, r) && id in rest && id in index && index[id].id == id
    ensures Listed(index, rest - {id}, r + [index[id]])
  {
    var r' := r + [index[id]];
    forall i, j | 0 <= i < j < |r'|
      ensures r'[i].id != r'[j].id
    {
      assert r[i] in r;
    }
    forall k | k in index && k !in rest - {id}
      ensures index[k] in r'
    {
      assert k != id ==> index[k] in r;
    }
  }

  /** The values of the index, in whatever order it yields them. */
  method Materialize(index: map<string, Allocation>) returns (r: seq<Allocation>)
    requires forall id :: id in index ==> index[id].id == id
    ensures Listed(index, {}, r)
  {
    hide Listed;
    r := [];
    var rest := index.Keys;
    assert Listed(index, rest, r) by {
      NothingListed(index);
    }
    while rest != {}
      invariant rest <= index.Keys && Listed(index, rest, r)
      decreases |rest|
    {
      var id :| id in rest;
      ListOne(index, rest, r, id);
      r := r + [index[id]];
      rest := rest - {id};
    }
  }

  lemma NothingListed(index: map<string, Allocation>)
    ensures Listed(index, index.Keys, [])
  {
  }

  /** The proposed allocations of a node: the survivors of the planned evictions, overlaid
      with the planned allocations. */
  method ProposedAllocs(existing: seq<Allocation>, evicted: seq<Allocation>, planned: seq<Allocation>)
    returns (r: seq<Allocation>)
    ensures Overlays(existing, evicted, planned, r)
  {
    hide LastById, Listed, Overlays;
    var proposed := SurvivingAllocs(existing, evicted);
    var index := IndexAll(map[], proposed);
    index := IndexAll(index, planned);
    Indexed(existing, evicted, planned, proposed, index);
    r := Materialize(index);
    ListedOverlays(existing, evicted, planned, index, r);
  }

  /** Put a list into the index, later entries over earlier ones. */
  method IndexAll(index: map<string, Allocation>, list: seq<Allocation>) returns (r: map<string, Allocation>)
    ensures r == index + LastById(list)
  {
    r := index;
    for i := 0 to |list|
      invariant r == index + LastById(list[..i])
    {
      LastByIdNext(index, list, i);
      r := r[list[i].id := list[i]];
    }
    assert list[..|list|] == list;
  }

  /** What the index holds. */
  ghost predicate IndexOk(existing: seq<Allocation>, evicted: seq<Allocation>, planned: seq<Allocation>, index: map<string, Allocation>) {
    && (forall id :: id in index <==> id in Ids(planned) || id in Ids(existing) - Ids(evicted))
    && (forall id :: id in index ==> index[id].id == id)
    && (forall id :: id in index ==>
          if id in LastById(planned) then index[id] == LastById(planned)[id] else index[id] in existing && id !in Ids(evicted))
  }

  lemma Indexed(existing: seq<Allocation>, evicted: seq<Allocation>, planned: seq<Allocation>,
                proposed: seq<Allocation>, index: map<string, Allocation>)
    requires forall a :: a in proposed <==> a in existing && a.id !in Ids(evicted)
    requires index == map[] + LastById(proposed) + LastById(planned)
    ensures IndexOk(existing, evicted, planned, index)
  {
    hide LastById;
    LastByIdHolds(proposed);
    LastByIdHolds(planned);
    assert forall id :: id in Ids(proposed) <==> id in Ids(existing) - Ids(evicted);
  }

  lemma ListedOverlays(existing: seq<Allocation>, evicted: seq<Allocation>, planned: seq<Allocation>,
                       index: map<string, Allocation>, r: seq<Allocation>)
    requires IndexOk(existing, evicted, planned, index) && Listed(index, {}, r)
    ensures Overlays(existing, evicted, planned, r)
  {
    hide LastById;
    forall id
      ensures id in Ids(r) <==> id in index
    {
      if id in index {
        assert index[id] in r;
      }
    }
  }
}
