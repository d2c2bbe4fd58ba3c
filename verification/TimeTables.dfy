/** The time table: a bounded log of (Raft index, time) pairs, newest first, thinned to one
    entry per granularity and searched by bisection. A clock reading is an integer whose zero
    is the zero time. A granularity of zero makes the constructor divide by zero; a negative
    one is accepted, and what the table then keeps is stated too. */
module TimeTables {

  datatype Entry = Entry(index: nat, time: int)

  const ZERO_TIME := 0
  const ZERO_ENTRY := Entry(0, ZERO_TIME)

  /** Go's division truncates towards zero, and so differs from Dafny's for a negative dividend. */
  function Quotient(a: int, b: int): int
    requires b != 0
  {
    if a >= 0 then a / b else -((-a) / b)
  }

  function Capacity(granularity: int, limit: int): (n: nat)
    requires granularity != 0
    ensures n >= 1
  {
    if Quotient(limit, granularity) < 1 then 1 else Quotient(limit, granularity)
  }

  /** A table has room for as many granularities as fit into the limit, and for one entry at least. */
  lemma CapacityExactly(granularity: int, limit: int)
    requires granularity > 0
    ensures var n := Capacity(granularity, limit);
            if limit >= granularity then n * granularity <= limit < (n + 1) * granularity else n == 1
  {
  }

  /** What Witness does to the entries. */
  function Witnessed(table: seq<Entry>, granularity: int, capacity: nat, index: nat, when: int): seq<Entry>
    requires 1 <= |table| <= capacity
  {
    if table[0].index > index || when - table[0].time < granularity then table
    else [Entry(index, when)] + if |table| < capacity then table else table[..|table| - 1]
  }

  // ---- what every sequence of Witness calls keeps ----------------------------------

  /** Newest first, a granularity apart, indexes in order; the oldest entry is the initial one
      until the table is full, and any other is at least a granularity after the zero time. */
  ghost predicate Inv(table: seq<Entry>, granularity: int, capacity: nat) {
    && 1 <= |table| <= capacity
    && (forall i, j :: 0 <= i < j < |table| ==>
          table[i].time - table[j].time >= granularity && table[i].index >= table[j].index)
    && (table[|table| - 1] == ZERO_ENTRY
        || (|table| == capacity && table[|table| - 1].time >= ZERO_TIME + granularity))
  }

  /** The indexes do not increase towards the older entries, whatever the granularity. */
  ghost predicate IndexesOrdered(table: seq<Entry>) {
    forall i, j :: 0 <= i < j < |table| ==> table[i].index >= table[j].index
  }

  lemma WitnessOrders(table: seq<Entry>, granularity: int, capacity: nat, index: nat, when: int)
    requires 1 <= |table| <= capacity && IndexesOrdered(table)
    ensures IndexesOrdered(Witnessed(table, granularity, capacity, index, when))
  {
  }

  lemma WitnessKeeps(table: seq<Entry>, granularity: int, capacity: nat, index: nat, when: int)
    requires Inv(table, granularity, capacity) && granularity > 0
    ensures Inv(Witnessed(table, granularity, capacity, index, when), granularity, capacity)
  {
  }

  datatype Reading = Reading(index: nat, when: int)

  /** The table after a run of Witness calls on a fresh one. */
  function After(run: seq<Reading>, granularity: int, capacity: nat): (table: seq<Entry>)
    requires capacity >= 1
    ensures 1 <= |table| <= capacity && IndexesOrdered(table)
    ensures granularity > 0 ==> Inv(table, granularity, capacity)
    decreases |run|
  {
    if run == [] then [ZERO_ENTRY]
    else
      var before := After(run[..|run| - 1], granularity, capacity);
      var r := run[|run| - 1];
      WitnessOrders(before, granularity, capacity, r.index, r.when);
      assert granularity > 0 ==> Inv(Witnessed(before, granularity, capacity, r.index, r.when), granularity, capacity) by {
        if granularity > 0 {
          WitnessKeeps(before, granularity, capacity, r.index, r.when);
        }
      }
      Witnessed(before, granularity, capacity, r.index, r.when)
  }

  // ---- searching -------------------------------------------------------------------

  predicate Before(e: Entry, when: int) { e.time <= when }

  predicate AtMost(e: Entry, index: nat) { e.index <= index }

  /** A linear scan for the newest entry with a property. */
  function Scan(table: seq<Entry>, ok: Entry -> bool): (k: nat)
    ensures k <= |table| && (k < |table| ==> ok(table[k]))
    ensures forall i :: 0 <= i < k ==> !ok(table[i])
  {
    if table == [] || ok(table[0]) then 0 else 1 + Scan(table[1..], ok)
  }

  /** Once a property holds of an entry it holds of all older ones. */
  ghost predicate Monotone(table: seq<Entry>, ok: Entry -> bool) {
    forall i, j :: 0 <= i <= j < |table| && ok(table[i]) ==> ok(table[j])
  }

  /** From k on, or at least at k, the property holds; just before k it does not. */
  ghost predicate Borders(table: seq<Entry>, ok: Entry -> bool, k: nat) {
    k <= |table| && (k > 0 ==> !ok(table[k - 1])) && (k < |table| ==> ok(table[k]))
  }

  /** Go's sort.Search finds a border of the property; of a monotone one, the only one. */
  method Search(table: seq<Entry>, ok: Entry -> bool) returns (k: nat)
    ensures k <= |table|
    ensures k > 0 ==> !ok(table[k - 1])
    ensures k < |table| ==> ok(table[k])
    ensures Monotone(table, ok) ==> k == Scan(table, ok)
  {
    var j := |table|;
    k := 0;
    while k < j
      invariant k <= j <= |table|
      invariant k > 0 ==> !ok(table[k - 1])
      invariant j < |table| ==> ok(table[j])
    {
      var h := (k + j) / 2;
      if !ok(table[h]) {
        k := h + 1;
      } else {
        j := h;
      }
    }
    if Monotone(table, ok) {
      BorderIsFirst(table, ok, k);
    }
  }

  lemma BorderIsFirst(table: seq<Entry>, ok: Entry -> bool, k: nat)
    requires Monotone(table, ok) && k <= |table|
    requires k > 0 ==> !ok(table[k - 1])
    requires k < |table| ==> ok(table[k])
    ensures k == Scan(table, ok)
  {
    forall i | 0 <= i < k
      ensures !ok(table[i])
    {
      assert !ok(table[k - 1]);
    }
    ScanIsFirst(table, ok, k);
  }

  lemma {:induction false} ScanIsFirst(table: seq<Entry>, ok: Entry -> bool, k: nat)
    requires k <= |table| && (k < |table| ==> ok(table[k]))
    requires forall i :: 0 <= i < k ==> !ok(table[i])
    ensures k == Scan(table, ok)
  {
    if k > 0 {
      ScanIsFirst(table[1..], ok, k - 1);
    }
  }

  lemma TimesMonotone(table: seq<Entry>, granularity: int, capacity: nat, when: int)
    requires Inv(table, granularity, capacity) && granularity > 0
    ensures Monotone(table, (e: Entry) => Before(e, when))
  {
    forall i, j | 0 <= i <= j < |table| && Before(table[i], when)
      ensures Before(table[j], when)
    {
    }
  }

  lemma IndexesMonotone(table: seq<Entry>, index: nat)
    requires IndexesOrdered(table)
    ensures Monotone(table, (e: Entry) => AtMost(e, index))
  {
    forall i, j | 0 <= i <= j < |table| && AtMost(table[i], index)
      ensures AtMost(table[j], index)
    {
    }
  }

  /** The index of the newest entry not after a time. */
  function IndexAt(table: seq<Entry>, when: int): nat {
    var k := Scan(table, (e: Entry) => Before(e, when));
    if k < |table| then table[k].index else 0
  }

  /** The time of the newest entry whose index is not above. */
  function TimeAt(table: seq<Entry>, index: nat): int {
    var k := Scan(table, (e: Entry) => AtMost(e, index));
    if k < |table| then table[k].time else ZERO_TIME
  }

  /** On the entries: the index of an entry not after the time while all newer ones are, or zero when
      every entry is after it. */
  lemma IndexAtMeans(table: seq<Entry>, when: int)
    ensures || (IndexAt(table, when) == 0 && forall i :: 0 <= i < |table| ==> table[i].time > when)
            || exists k :: && 0 <= k < |table| && table[k].time <= when && IndexAt(table, when) == table[k].index
                           && forall i :: 0 <= i < k ==> table[i].time > when
  {
    var k := Scan(table, (e: Entry) => Before(e, when));
    assert forall i :: 0 <= i < k ==> !Before(table[i], when);
    assert k < |table| ==> Before(table[k], when);
  }

  /** The time of an entry whose index is not above while all newer ones are, or the zero time when every
      entry is above. */
  lemma TimeAtMeans(table: seq<Entry>, index: nat)
    ensures || (TimeAt(table, index) == 0 && forall i :: 0 <= i < |table| ==> table[i].index > index)
            || exists k :: && 0 <= k < |table| && table[k].index <= index && TimeAt(table, index) == table[k].time
                           && forall i :: 0 <= i < k ==> table[i].index > index
  {
    var k := Scan(table, (e: Entry) => AtMost(e, index));
    assert forall i :: 0 <= i < k ==> !AtMost(table[i], index);
    assert k < |table| ==> AtMost(table[k], index);
  }

  // ---- what the answer is good for -------------------------------------------------

  ghost predicate IndexesGrow(run: seq<Reading>) {
    forall i, j :: 0 <= i <= j < |run| ==> run[i].index <= run[j].index
  }

  ghost predicate Seen(table: seq<Entry>, granularity: int, r: Reading)
    requires |table| >= 1
  {
    && r.when < table[0].time + granularity
    && forall k :: 0 <= k < |table| && table[k].time < r.when ==> table[k].index <= r.index
  }

  lemma SeenStays(table: seq<Entry>, granularity: int, capacity: nat, r: Reading, new_: Reading)
    requires Inv(table, granularity, capacity) && granularity > 0 && Seen(table, granularity, r)
    ensures Seen(Witnessed(table, granularity, capacity, new_.index, new_.when), granularity, r)
  {
    var table' := Witnessed(table, granularity, capacity, new_.index, new_.when);
    if table' != table {
      forall k | 0 <= k < |table'| && table'[k].time < r.when
        ensures table'[k].index <= r.index
      {
        assert k > 0 && table'[k] == table[k - 1];
      }
    }
  }

  lemma SeenNow(table: seq<Entry>, granularity: int, capacity: nat, new_: Reading)
    requires Inv(table, granularity, capacity) && granularity > 0 && table[0].index <= new_.index
    ensures Seen(Witnessed(table, granularity, capacity, new_.index, new_.when), granularity, new_)
    ensures Witnessed(table, granularity, capacity, new_.index, new_.when)[0].index <= new_.index
  {
    var table' := Witnessed(table, granularity, capacity, new_.index, new_.when);
    WitnessKeeps(table, granularity, capacity, new_.index, new_.when);
    forall k | 0 <= k < |table'|
      ensures table'[k].index <= new_.index
    {
    }
  }

  lemma {:induction false} RunSeen(run: seq<Reading>, granularity: int, capacity: nat)
    requires granularity > 0 && capacity >= 1 && IndexesGrow(run)
    ensures forall i :: 0 <= i < |run| ==> Seen(After(run, granularity, capacity), granularity, run[i])
    ensures run != [] ==> After(run, granularity, capacity)[0].index <= run[|run| - 1].index
    ensures run == [] ==> After(run, granularity, capacity)[0].index == 0
    decreases |run|
  {
    hide Seen, Witnessed;
    if run != [] {
      var before, r := run[..|run| - 1], run[|run| - 1];
      RunSeen(before, granularity, capacity);
      var table := After(before, granularity, capacity);
      SeenNow(table, granularity, capacity, r);
      forall i | 0 <= i < |run|
        ensures Seen(After(run, granularity, capacity), granularity, run[i])
      {
        if i < |before| {
          assert before[i] == run[i];
          SeenStays(table, granularity, capacity, run[i], r);
        }
      }
    }
  }

  /** With growing indexes the newest entry is never a granularity or more behind anything witnessed. */
  lemma NeverBehind(run: seq<Reading>, granularity: int, capacity: nat, i: nat)
    requires granularity > 0 && capacity >= 1 && IndexesGrow(run) && i < |run|
    ensures run[i].when < After(run, granularity, capacity)[0].time + granularity
  {
    RunSeen(run, granularity, capacity);
    assert Seen(After(run, granularity, capacity), granularity, run[i]);
  }

  /** Every entry is the initial one or was witnessed. */
  lemma {:induction false} EntriesAreReadings(run: seq<Reading>, granularity: int, capacity: nat, k: nat)
    requires capacity >= 1 && k < |After(run, granularity, capacity)|
    ensures var e := After(run, granularity, capacity)[k];
            e == ZERO_ENTRY || exists i :: 0 <= i < |run| && e == Entry(run[i].index, run[i].when)
    decreases |run|
  {
    if run != [] {
      var before, r := run[..|run| - 1], run[|run| - 1];
      var table := After(before, granularity, capacity);
      var e := After(run, granularity, capacity)[k];
      if e != Entry(r.index, r.when) {
        var j := if After(run, granularity, capacity) == table then k else k - 1;
        assert e == table[j];
        EntriesAreReadings(before, granularity, capacity, j);
        if e != ZERO_ENTRY {
          var i :| 0 <= i < |before| && e == Entry(before[i].index, before[i].when);
          assert run[i] == before[i];
        }
      }
    }
  }

  /** A reading is entered exactly when its index is not below and its time a granularity after those of
      the newest entry; the oldest entry leaves exactly when the table is full. */
  lemma EnteredExactly(run: seq<Reading>, granularity: int, capacity: nat, r: Reading)
    requires capacity >= 1
    ensures var table, table' := After(run, granularity, capacity), After(run + [r], granularity, capacity);
            if r.index >= table[0].index && r.when >= table[0].time + granularity
            then table'[0] == Entry(r.index, r.when)
                 && table'[1..] == if |table| < capacity then table else table[..|table| - 1]
            else table' == table
  {
    assert (run + [r])[..|run|] == run;
  }

  /** With growing indexes, and whatever the clock does, the index found for a cutoff time is
      not above that of anything witnessed after the cutoff. */
  lemma CutoffIsSafe(run: seq<Reading>, granularity: int, capacity: nat, when: int, i: nat)
    requires granularity > 0 && capacity >= 1 && IndexesGrow(run)
    requires i < |run| && run[i].when > when
    ensures IndexAt(After(run, granularity, capacity), when) <= run[i].index
  {
    RunSeen(run, granularity, capacity);
    assert Seen(After(run, granularity, capacity), granularity, run[i]);
  }

  // ---- restoring -------------------------------------------------------------------

  /** Deserialize: the entries are witnessed again from the oldest to the newest. */
  function Replay(table: seq<Entry>, granularity: int, capacity: nat, entries: seq<Entry>): (r: seq<Entry>)
    requires 1 <= |table| <= capacity
    ensures 1 <= |r| <= capacity
    decreases |entries|
  {
    if entries == [] then table
    else Witnessed(Replay(table, granularity, capacity, entries[1..]), granularity, capacity, entries[0].index, entries[0].time)
  }

  /** What replaying the entries from k on has built. */
  function Rebuilt(table: seq<Entry>, k: nat): seq<Entry>
    requires k < |table|
  {
    if k == 0 || table[|table| - 1] == ZERO_ENTRY then table[k..] else table[k..] + [ZERO_ENTRY]
  }

  lemma ReplayNext(table: seq<Entry>, granularity: int, capacity: nat, k: nat)
    requires k + 1 < |table| <= capacity
    requires table[|table| - 1] == ZERO_ENTRY || |table| == capacity
    requires table[k].time - table[k + 1].time >= granularity && table[k].index >= table[k + 1].index
    ensures 1 <= |Rebuilt(table, k + 1)| <= capacity
    ensures Witnessed(Rebuilt(table, k + 1), granularity, capacity, table[k].index, table[k].time) == Rebuilt(table, k)
  {
    var older := Rebuilt(table, k + 1);
    assert older[0] == table[k + 1];
    assert [table[k]] + table[k + 1..] == table[k..];
    if k == 0 && table[|table| - 1] != ZERO_ENTRY {
      assert older[..|older| - 1] == table[1..];
    }
  }

  /** Replaying the older part rebuilds it, above the initial entry if that was evicted. */
  lemma {:induction false} ReplaySuffix(table: seq<Entry>, granularity: int, capacity: nat, k: nat)
    requires Inv(table, granularity, capacity) && granularity > 0 && k < |table|
    ensures Replay([ZERO_ENTRY], granularity, capacity, table[k..]) == Rebuilt(table, k)
    decreases |table| - k
  {
    assert table[k..][1..] == table[k + 1..] && table[k..][0] == table[k];
    if k + 1 == |table| {
      assert table[k + 1..] == [];
    } else {
      ReplaySuffix(table, granularity, capacity, k + 1);
      ReplayNext(table, granularity, capacity, k);
      hide Witnessed, Rebuilt;
    }
  }

  /** Restoring a reachable table into a fresh one rebuilds it, entry for entry. */
  lemma RestoreRoundTrip(run: seq<Reading>, granularity: int, capacity: nat)
    requires granularity > 0 && capacity >= 1
    ensures var table := After(run, granularity, capacity);
            Replay([ZERO_ENTRY], granularity, capacity, table) == table
  {
    var table := After(run, granularity, capacity);
    ReplaySuffix(table, granularity, capacity, 0);
    assert table[0..] == table;
  }

  // ---- a negative granularity ------------------------------------------------------

  ghost predicate Descending(table: seq<Entry>) {
    forall i, j :: 0 <= i < j < |table| ==> table[i].time > table[j].time
  }

  lemma OneReading(granularity: int, capacity: nat)
    requires capacity >= 1 && granularity < 0
    ensures After([Reading(0, granularity)], granularity, capacity)
            == [Entry(0, granularity)] + if capacity > 1 then [ZERO_ENTRY] else []
  {
    var run := [Reading(0, granularity)];
    assert run[..0] == [];
    assert After(run[..0], granularity, capacity) == [ZERO_ENTRY];
  }

  /** In every run the times descend exactly when the granularity is positive or there is room for
      one entry only. */
  lemma DescendingExact(granularity: int, capacity: nat)
    requires granularity != 0 && capacity >= 1
    ensures (forall run :: Descending(After(run, granularity, capacity))) <==> granularity > 0 || capacity == 1
  {
    if granularity < 0 && capacity > 1 {
      OneReading(granularity, capacity);
      var table := After([Reading(0, granularity)], granularity, capacity);
      assert table[0].time < table[1].time;
      assert !Descending(table);
    }
  }

  /** Two readings push the only entry out of reach of a fresh table. */
  lemma TwoReadings(granularity: int)
    requires granularity < 0
    ensures After([Reading(0, granularity), Reading(0, 2 * granularity)], granularity, 1) == [Entry(0, 2 * granularity)]
  {
    OneReading(granularity, 1);
    var run := [Reading(0, granularity), Reading(0, 2 * granularity)];
    assert run[..1] == [Reading(0, granularity)];
  }

  /** Restoring rebuilds every reachable table exactly when the granularity is positive. */
  lemma RestoreExact(granularity: int, capacity: nat)
    requires granularity != 0 && capacity >= 1
    ensures (forall run :: var table := After(run, granularity, capacity);
                           Replay([ZERO_ENTRY], granularity, capacity, table) == table)
            <==> granularity > 0
  {
    if granularity > 0 {
      forall run
        ensures var table := After(run, granularity, capacity);
                Replay([ZERO_ENTRY], granularity, capacity, table) == table
      {
        RestoreRoundTrip(run, granularity, capacity);
      }
    } else if capacity > 1 {
      assert After([], granularity, capacity) == [ZERO_ENTRY];
      assert [ZERO_ENTRY][1..] == [];
      assert |Replay([ZERO_ENTRY], granularity, capacity, [ZERO_ENTRY])| == 2;
    } else {
      TwoReadings(granularity);
      assert [Entry(0, 2 * granularity)][1..] == [];
      assert Replay([ZERO_ENTRY], granularity, capacity, [Entry(0, 2 * granularity)]) == [ZERO_ENTRY];
    }
  }

  // ---- the table in place ----------------------------------------------------------

  class TimeTable {
    const granularity: int
    const limit: int
    /** The slice: its length, and a buffer as long as its capacity. */
    var len: nat
    const buffer: array<Entry>

    ghost predicate Valid()
      reads this, buffer
    {
      granularity != 0 && buffer.Length == Capacity(granularity, limit) && 1 <= len <= buffer.Length
      && IndexesOrdered(buffer[..len])
      && (granularity > 0 ==> Inv(buffer[..len], granularity, buffer.Length))
    }

    ghost function Table(): seq<Entry>
      requires Valid()
      reads this, buffer
    {
      buffer[..len]
    }

    constructor (granularity: int, limit: int)
      requires granularity != 0
      ensures Valid() && fresh(buffer) && this.granularity == granularity && this.limit == limit
      ensures Table() == [ZERO_ENTRY]
    {
      this.granularity, this.limit := granularity, limit;
      buffer := new Entry[Capacity(granularity, limit)](i => ZERO_ENTRY);
      len := 1;
    }

    method Witness(index: nat, when: int)
      requires Valid()
      modifies this`len, buffer
      ensures Valid()
      ensures Table() == Witnessed(old(Table()), granularity, buffer.Length, index, when)
    {
      hide Inv, IndexesOrdered;
      if buffer[0].index > index {
        return;
      }
      if when - buffer[0].time < granularity {
        return;
      }
      WitnessOrders(buffer[..len], granularity, buffer.Length, index, when);
      if granularity > 0 {
        WitnessKeeps(buffer[..len], granularity, buffer.Length, index, when);
      }
      ghost var before := buffer[..len];
      if len < buffer.Length {
        len := len + 1;
      }
      forall i | 1 <= i < len {
        buffer[i] := buffer[i - 1];
      }
      buffer[0] := Entry(index, when);
      assert buffer[..len] == [Entry(index, when)] + before[..len - 1];
      assert before[..|before|] == before;
      assert buffer[..len] == Witnessed(before, granularity, buffer.Length, index, when);
    }

    /** The index of an entry not after the time whose next newer one is after it, if there is
        any; with a positive granularity, that of the newest entry not after the time. */
    method NearestIndex(when: int) returns (index: nat)
      requires Valid()
      ensures granularity > 0 ==>
        || (index == 0 && forall i :: 0 <= i < |Table()| ==> Table()[i].time > when)
        || exists k :: && 0 <= k < |Table()| && Table()[k].time <= when && index == Table()[k].index
                       && forall i :: 0 <= i < k ==> Table()[i].time > when
      ensures granularity > 0 ==> index == IndexAt(Table(), when)
      ensures index == 0 || exists k: nat :: Borders(Table(), (e: Entry) => Before(e, when), k) && k < len && index == Table()[k].index
    {
      IndexAtMeans(buffer[..len], when);
      if granularity > 0 {
        TimesMonotone(buffer[..len], granularity, buffer.Length, when);
      }
      var k := Search(buffer[..len], (e: Entry) => Before(e, when));
      assert Borders(Table(), (e: Entry) => Before(e, when), k);
      index := if k < len then buffer[k].index else 0;
    }

    method NearestTime(index: nat) returns (time: int)
      requires Valid()
      ensures time == TimeAt(Table(), index)
      ensures || (time == 0 && forall i :: 0 <= i < |Table()| ==> Table()[i].index > index)
              || exists k :: && 0 <= k < |Table()| && Table()[k].index <= index && time == Table()[k].time
                             && forall i :: 0 <= i < k ==> Table()[i].index > index
    {
      TimeAtMeans(buffer[..len], index);
      IndexesMonotone(buffer[..len], index);
      var k := Search(buffer[..len], (e: Entry) => AtMost(e, index));
      time := if k < len then buffer[k].time else ZERO_TIME;
    }

    method Deserialize(table: seq<Entry>)
      requires Valid()
      modifies this`len, buffer
      ensures Valid()
      ensures Table() == Replay(old(Table()), granularity, buffer.Length, table)
    {
      var i := |table|;
      while i > 0
        invariant 0 <= i <= |table| && Valid()
        invariant Table() == Replay(old(Table()), granularity, buffer.Length, table[i..])
      {
        i := i - 1;
        assert table[i..][1..] == table[i + 1..];
        Witness(table[i].index, table[i].time);
      }
      assert table[0..] == table;
    }
  }
}
