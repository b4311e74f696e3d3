/** The wrapped scan that gives a VM its customer /64. */
module PrefixScan {
  /** The index visited at an offset from the hashed start; index 0 is skipped. */
  function Slot(total: nat, start: nat, offset: nat): nat
    requires total >= 2 && start >= 1
  {
    (start - 1 + offset) % (total - 1) + 1
  }

  datatype Allocation = Allocated(index: nat) | PoolExhausted | NoUsablePrefixes

  predicate Configured(total: nat, reserved: set<nat>) { 0 in reserved && total > |reserved| }

  function StartOf(digest: nat, usable: nat): nat
    requires usable > 0
  {
    digest % usable + 1
  }

  /** The index the allocator looks at for a hash and an offset. */
  function Visited(total: nat, reserved: set<nat>, digest: nat, offset: nat): nat
    requires Configured(total, reserved) && total >= 2
  {
    Slot(total, StartOf(digest, total - |reserved|), offset)
  }

  /** Index 0 is always reserved. The scan is bounded by the number of
      unreserved indexes. */
  method AllocateCustomerPrefix(digest: nat, used: set<nat>, reserved: set<nat>, total: nat) returns (r: Allocation)
    requires 0 in reserved
    ensures r.NoUsablePrefixes? <==> total <= |reserved|
    ensures r.Allocated? ==> 1 <= r.index < total && r.index !in used && r.index !in reserved
    ensures !r.NoUsablePrefixes? ==> total >= 2
    ensures r.Allocated? ==>
              exists k: nat :: k < total - |reserved| && Visited(total, reserved, digest, k) == r.index
                && forall j: nat :: j < k ==> Visited(total, reserved, digest, j) in used + reserved
    ensures r.PoolExhausted? ==>
              forall j: nat :: j < total - |reserved| ==> Visited(total, reserved, digest, j) in used + reserved
    ensures |reserved| == 1 && total > 1 ==>
              (r.PoolExhausted? <==> forall i :: 1 <= i < total ==> i in used)
  {
    if total <= |reserved| { return NoUsablePrefixes; }
    var taken := used + reserved;
    var start := digest % (total - |reserved|) + 1;
    if |reserved| == 1 { OnlyZeroReserved(reserved); }
    for offset := 0 to total - |reserved|
      invariant forall j: nat :: j < offset ==> Visited(total, reserved, digest, j) in taken
    {
      var index := (start - 1 + offset) % (total - 1) + 1;
      assert index == Visited(total, reserved, digest, offset);
      if index in taken { continue; }
      return Allocated(index);
    }
    if |reserved| == 1 {
      forall i | 1 <= i < total ensures i in used {
        var k := OffsetOf(total, start, i);
        assert Visited(total, reserved, digest, k) in taken;
      }
    }
    return PoolExhausted;
  }

  lemma OnlyZeroReserved(reserved: set<nat>)
    requires 0 in reserved && |reserved| == 1
    ensures reserved == {0}
  {
    assert |reserved - {0}| == 0;
  }

  /** The offset at which an index is visited. */
  lemma OffsetOf(total: nat, start: nat, i: nat) returns (k: nat)
    requires total >= 2 && start >= 1 && 1 <= i < total
    ensures k < total - 1 && Slot(total, start, k) == i
  {
    var m := total - 1;
    k := (i - start) % m;
    var q := (i - start) / m;
    assert i - start == q * m + k;
    assert start - 1 + k == i - 1 - q * m;
    ShiftMod(i - 1, -q, m);
  }

  lemma ShiftMod(a: int, q: int, m: nat)
    requires 0 <= a < m
    ensures (a + q * m) % m == a
  {
    var b := a + q * m;
    DivisionUnique(b / m, b % m, q, a, m);
  }

  lemma DivisionUnique(q: int, r: int, q': int, r': int, m: nat)
    requires 0 <= r < m && 0 <= r' < m && q * m + r == q' * m + r'
    ensures q == q' && r == r'
  {
    assert (q - q') * m == r' - r;
    assert (q' - q) * m == r - r';
    if q > q' {
      MulAtLeast(q - q', m);
    } else if q < q' {
      MulAtLeast(q' - q, m);
    }
  }

  lemma MulAtLeast(x: int, m: nat)
    requires x >= 1
    ensures x * m >= m
  {
  }

  /** Each index from 1 to total - 1 is visited exactly once in total - 1
      offsets, from any start. */
  lemma VisitsEachOnce(total: nat, start: nat, j: nat, k: nat)
    requires total >= 2 && start >= 1 && j < total - 1 && k < total - 1
    ensures 1 <= Slot(total, start, j) < total
    ensures Slot(total, start, j) == Slot(total, start, k) ==> j == k
  {
    var m := total - 1;
    var a, b := start - 1 + j, start - 1 + k;
    if a % m == b % m {
      var d := a / m - b / m;
      assert j == k + d * m by { assert a == a / m * m + a % m && b == b / m * m + b % m; }
      DivisionUnique(0, j, d, k, m);
    }
  }

  /** The bounded scan reaches every index from every start exactly when 0 is
      the only reserved one; with more reserved indexes it is still sound, but
      it may miss a free index. */
  lemma CompleteIffOnlyZeroReserved(total: nat, reserved: set<nat>)
    requires Configured(total, reserved) && total >= 2
    ensures (forall digest: nat, i | 1 <= i < total :: Reaches(total, reserved, digest, i)) <==> reserved == {0}
  {
    if reserved == {0} {
      forall digest: nat, i | 1 <= i < total ensures Reaches(total, reserved, digest, i) {
        var k := OffsetOf(total, StartOf(digest, total - 1), i);
        assert Visited(total, reserved, digest, k) == i;
      }
    } else {
      if |reserved| == 1 { OnlyZeroReserved(reserved); }
      var last := Slot(total, 1, total - 2);
      assert !Reaches(total, reserved, 0, last) by {
        forall k: nat | k < total - |reserved| ensures Visited(total, reserved, 0, k) != last {
          VisitsEachOnce(total, 1, k, total - 2);
        }
      }
      VisitsEachOnce(total, 1, total - 2, 0);
    }
  }

  predicate Reaches(total: nat, reserved: set<nat>, digest: nat, i: nat)
    requires Configured(total, reserved) && total >= 2
  {
    exists k: nat | k < total - |reserved| :: Visited(total, reserved, digest, k) == i
  }
}
