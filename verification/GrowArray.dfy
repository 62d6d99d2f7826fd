/** The pointer arrays of kafka_tables_t: grown by doubling, never shrunk, with removal by moving the
    last entry into the hole (kafka-table.c). */
module GrowArray {

  const INITIAL_SLOTS: nat := 8   // KAFKA_TABLE_INITIAL_SLOTS

  function Pow2(k: nat): (n: nat)
    ensures n > 0
  {
    if k == 0 then 1 else 2 * Pow2(k - 1)
  }

  /** What doubling from 8 can reach. */
  ghost predicate IsCapacity(n: nat) {
    n == 0 || exists k: nat :: n == 8 * Pow2(k)
  }

  lemma Doubled(n: nat)
    requires IsCapacity(n)
    ensures IsCapacity(if n == 0 then 8 else 2 * n)
    ensures n == 0 || n >= 8
  {
    if n == 0 {
      assert 8 == 8 * Pow2(0);
    } else {
      var k: nat :| n == 8 * Pow2(k);
      assert 2 * n == 8 * Pow2(k + 1);
    }
  }

  /** The sequence with its last entry moved into the hole. */
  function SwapRemove<T>(a: seq<T>, i: nat): (b: seq<T>)
    requires i < |a|
    ensures |b| == |a| - 1
    ensures forall j | 0 <= j < |b| :: b[j] == if j == i then a[|a| - 1] else a[j]
  {
    a[i := a[|a| - 1]][..|a| - 1]
  }

  /** What has been done to an array since it was last given back. */
  datatype Operation = Growing(granted: bool) | Appended | Removed | Emptied

  /** How full it is, how large, how full it has ever been, and the slots all reallocations copied. */
  datatype Usage = Usage(count: nat, capacity: nat, peak: nat, copied: nat)

  function Operate(u: Usage, op: Operation): Usage {
    match op
    case Growing(granted) =>
      if u.count < u.capacity || !granted then u
      else u.(capacity := if u.capacity == 0 then INITIAL_SLOTS else u.capacity * 2, copied := u.copied + u.capacity)
    case Appended =>
      if u.count == u.capacity then u
      else u.(count := u.count + 1, peak := if u.count == u.peak then u.peak + 1 else u.peak)
    case Removed => if u.count == 0 then u else u.(count := u.count - 1)
    case Emptied => u.(count := 0)
  }

  function Used(ops: seq<Operation>): Usage {
    if ops == [] then Usage(0, 0, 0, 0) else Operate(Used(ops[..|ops| - 1]), ops[|ops| - 1])
  }

  lemma UsedExtend(ops: seq<Operation>, op: Operation)
    ensures Used(ops + [op]) == Operate(Used(ops), op)
  {
    assert (ops + [op])[..|ops|] == ops;
  }

  /** Over a whole lifetime, whatever the mix of appends, removals and refused allocations: the capacity is
      0 or 8 times a power of two, and it and all copying are proportional to the largest count. */
  lemma {:induction false} Amortised(ops: seq<Operation>)
    ensures var u := Used(ops);
            && u.count <= u.capacity && u.count <= u.peak <= u.capacity
            && IsCapacity(u.capacity)
            && (u.capacity <= INITIAL_SLOTS || u.capacity <= 2 * u.peak)
            && u.copied <= 2 * u.peak
            && u.copied == (if u.capacity == 0 then 0 else u.capacity - INITIAL_SLOTS)
  {
    if ops != [] {
      Amortised(ops[..|ops| - 1]);
      Doubled(Used(ops[..|ops| - 1]).capacity);
    }
  }

  /** An array with its count; its length is the capacity. */
  class Slots<T(0)> {
    var data: array<T>
    var count: nat
    ghost var ops: seq<Operation>

    ghost predicate Valid()
      reads this, data
    {
      count <= data.Length && count == Used(ops).count && data.Length == Used(ops).capacity
    }

    ghost function Contents(): (s: seq<T>)
      reads this, data
      requires Valid()
    {
      data[..count]
    }

    constructor ()
      ensures Valid() && Contents() == [] && fresh(data) && data.Length == 0 && ops == []
    {
      data := new T[0];
      count, ops := 0, [];
    }

    /** kafka_table_grow: room for one more entry, unless the allocation is refused. */
    method Grow(granted: bool) returns (ok: bool)
      requires Valid()
      modifies this`data, this`ops
      ensures Valid() && Contents() == old(Contents()) && ops == old(ops) + [Growing(granted)]
      ensures ok <==> old(count < data.Length) || granted
      ensures ok ==> count < data.Length
      ensures old(count < data.Length) || !granted ==> data == old(data)
      ensures data == old(data) || (fresh(data) && data.Length == if old(data.Length) == 0 then 8 else 2 * old(data.Length))
    {
      hide Used;
      UsedExtend(ops, Growing(granted));
      ops := ops + [Growing(granted)];
      if count < data.Length {
        return true;
      }
      var newcap := if data.Length == 0 then INITIAL_SLOTS else data.Length * 2;
      if !granted {
        return false;
      }
      var grown := new T[newcap];
      forall i | 0 <= i < data.Length {
        grown[i] := data[i];
      }
      data := grown;
      return true;
    }

    method Append(x: T)
      requires Valid() && count < data.Length
      modifies this`count, this`ops, data
      ensures Valid() && data == old(data) && ops == old(ops) + [Appended]
      ensures Contents() == old(Contents()) + [x]
    {
      hide Used;
      UsedExtend(ops, Appended);
      ops := ops + [Appended];
      data[count] := x;
      count := count + 1;
    }

    /** The last entry fills the hole. */
    method Remove(i: nat)
      requires Valid() && i < count
      modifies this`count, this`ops, data
      ensures Valid() && data == old(data) && ops == old(ops) + [Removed]
      ensures Contents() == SwapRemove(old(Contents()), i)
    {
      hide Used;
      UsedExtend(ops, Removed);
      ops := ops + [Removed];
      data[i] := data[count - 1];
      count := count - 1;
    }

    method Put(i: nat, x: T)
      requires Valid() && i < count
      modifies data
      ensures Valid() && Contents() == old(Contents())[i := x]
    {
      data[i] := x;
    }

    /** The entries are forgotten, the memory is kept. */
    method Empty()
      requires Valid()
      modifies this`count, this`ops
      ensures Valid() && Contents() == [] && ops == old(ops) + [Emptied]
    {
      hide Used;
      UsedExtend(ops, Emptied);
      ops := ops + [Emptied];
      count := 0;
    }

    /** The memory is given back. */
    method Release()
      requires Valid()
      modifies this
      ensures Valid() && Contents() == [] && fresh(data) && data.Length == 0 && ops == []
    {
      data := new T[0];
      count, ops := 0, [];
    }
  }
}
