/** The recovery cursor: bounded pages over a table that keeps growing, under a
    high-water mark fixed at the start of each cycle. Ids stand for their rank
    in the finite ordered id space; 0 is the empty string. */
module RecoverySweep {
  const PAGE: nat := 4

  predicate Ascending(ids: seq<nat>) { forall i, j | 0 <= i < j < |ids| :: ids[i] < ids[j] }

  /** An index scan: the eligible ids in order, all of them real ids. */
  predicate Scan(ids: seq<nat>) { Ascending(ids) && 0 !in ids }

  function Largest(ids: seq<nat>): nat { if ids == [] then 0 else ids[|ids| - 1] }

  function Between(ids: seq<nat>, low: nat, high: nat): seq<nat> {
    if ids == [] then []
    else (if low < ids[0] <= high then [ids[0]] else []) + Between(ids[1..], low, high)
  }

  function Page(ids: seq<nat>, low: nat, high: nat): seq<nat> {
    var found := Between(ids, low, high);
    if |found| <= PAGE then found else found[..PAGE]
  }

  datatype Cursor = Cursor(last: nat, mark: nat)

  const START := Cursor(0, 0)

  /** The two queries of one sweep: the rows seen by the high-water query and
      those seen by the page query, which may differ. spawned: how many
      dispatches return before one raises, which ends the loop. */
  datatype Seen = Seen(forMark: seq<nat>, forPage: seq<nat>, spawned: nat)

  function Marked(c: Cursor, seen: Seen): nat { if c.mark == 0 then Largest(seen.forMark) else c.mark }

  function Batch(c: Cursor, seen: Seen): seq<nat> { Page(seen.forPage, c.last, Marked(c, seen)) }

  /** The ids whose dispatch returned. */
  function Spawned(c: Cursor, seen: Seen): seq<nat> {
    if seen.spawned < |Batch(c, seen)| then Batch(c, seen)[..seen.spawned] else Batch(c, seen)
  }

  function Swept(c: Cursor, seen: Seen): Cursor {
    var batch := Batch(c, seen);
    if batch != [] && Largest(batch) != Marked(c, seen) then Cursor(Largest(batch), Marked(c, seen)) else START
  }

  class Sweeper {
    var recoveryCursor: nat
    var recoveryCycleMax: nat

    constructor ()
      ensures View() == START
    {
      recoveryCursor, recoveryCycleMax := 0, 0;
    }

    function View(): Cursor
      reads this
    {
      Cursor(recoveryCursor, recoveryCycleMax)
    }

    /** One call of the worker. The cursor moves before the first dispatch, and
        a dispatch that raises leaves the rest of the page to the next cycle. */
    method RecoverTrackedProvisioning(seen: Seen) returns (dispatched: seq<nat>, raised: bool)
      modifies this
      ensures dispatched == old(Spawned(View(), seen)) && View() == old(Swept(View(), seen))
      ensures raised <==> seen.spawned < |old(Batch(View(), seen))|
    {
      if recoveryCycleMax == 0 { recoveryCycleMax := Largest(seen.forMark); }
      var vmIds := Page(seen.forPage, recoveryCursor, recoveryCycleMax);
      if vmIds != [] && vmIds[|vmIds| - 1] != recoveryCycleMax {
        recoveryCursor := vmIds[|vmIds| - 1];
      } else {
        recoveryCursor := 0;
        recoveryCycleMax := 0;
      }
      dispatched := [];
      for i := 0 to |vmIds|
        invariant dispatched == vmIds[..i] && i <= seen.spawned
      {
        if i == seen.spawned { return dispatched, true; }
        dispatched := dispatched + [vmIds[i]];
      }
      return dispatched, false;
    }
  }

  // ----- pages -----

  lemma {:induction false} BetweenMembers(ids: seq<nat>, low: nat, high: nat, x: nat)
    ensures x in Between(ids, low, high) <==> x in ids && low < x <= high
  {
    if ids != [] {
      assert x in ids <==> x == ids[0] || x in ids[1..];
      BetweenMembers(ids[1..], low, high, x);
    }
  }

  lemma {:induction false} BetweenAscending(ids: seq<nat>, low: nat, high: nat)
    requires Ascending(ids)
    ensures Ascending(Between(ids, low, high))
  {
    if ids != [] {
      assert forall i | 0 <= i < |ids[1..]| :: ids[1..][i] == ids[i + 1];
      BetweenAscending(ids[1..], low, high);
      var rest := Between(ids[1..], low, high);
      forall i | 0 <= i < |rest| ensures ids[0] < rest[i] {
        BetweenMembers(ids[1..], low, high, rest[i]);
      }
    }
  }

  lemma BetweenSound(ids: seq<nat>, low: nat, high: nat)
    requires Ascending(ids)
    ensures Ascending(Between(ids, low, high))
    ensures forall x :: x in Between(ids, low, high) <==> x in ids && low < x <= high
  {
    BetweenAscending(ids, low, high);
    forall x: nat ensures x in Between(ids, low, high) <==> x in ids && low < x <= high {
      BetweenMembers(ids, low, high, x);
    }
  }

  /** A page is ascending, lies in the window, and leaves out an eligible id
      only if all of it comes before that id. */
  lemma PageSound(ids: seq<nat>, low: nat, high: nat)
    requires Ascending(ids)
    ensures var page := Page(ids, low, high);
            && Ascending(page) && |page| <= 4
            && (forall x | x in page :: x in ids && low < x <= high)
            && (forall x | x in ids && low < x <= high && x !in page :: |page| == 4 && Largest(page) < x)
            && (page == [] <==> forall x | x in ids :: !(low < x <= high))
  {
    BetweenSound(ids, low, high);
    var found, page := Between(ids, low, high), Page(ids, low, high);
    assert forall i | 0 <= i < |page| :: page[i] == found[i] && page[i] in page;
    assert forall x | x in page :: x in found;
    forall x | x in ids && low < x <= high && x !in page ensures |page| == PAGE && Largest(page) < x {
      var k :| 0 <= k < |found| && found[k] == x;
      assert k >= |page|;
    }
    if found != [] { assert found[0] in found; }
  }

  // ----- cycles -----

  /** Sweeps that make up the rest of one cycle: the first return to the start
      is after the last of them. */
  predicate Cycle(c: Cursor, sweeps: seq<Seen>)
    decreases |sweeps|
  {
    && sweeps != []
    && Scan(sweeps[0].forMark) && Scan(sweeps[0].forPage)
    && (if Swept(c, sweeps[0]) == START then |sweeps| == 1 else Cycle(Swept(c, sweeps[0]), sweeps[1..]))
  }

  function Paged(c: Cursor, sweeps: seq<Seen>): seq<nat>
    decreases |sweeps|
  {
    if sweeps == [] then [] else Batch(c, sweeps[0]) + Paged(Swept(c, sweeps[0]), sweeps[1..])
  }

  function Dispatched(c: Cursor, sweeps: seq<Seen>): seq<nat>
    decreases |sweeps|
  {
    if sweeps == [] then [] else Spawned(c, sweeps[0]) + Dispatched(Swept(c, sweeps[0]), sweeps[1..])
  }

  /** No dispatch raises at x, or before x in its page. */
  predicate NoRaiseBefore(c: Cursor, sweeps: seq<Seen>, x: nat)
    decreases |sweeps|
  {
    sweeps == [] ||
    ((forall p | 0 <= p < |Batch(c, sweeps[0])| && Batch(c, sweeps[0])[p] == x :: p < sweeps[0].spawned)
     && NoRaiseBefore(Swept(c, sweeps[0]), sweeps[1..], x))
  }

  predicate AlwaysEligible(x: nat, sweeps: seq<Seen>) { forall i | 0 <= i < |sweeps| :: x in sweeps[i].forPage }

  lemma AscendingConcat(a: seq<nat>, b: seq<nat>)
    requires Ascending(a) && Ascending(b) && forall x, y | x in a && y in b :: x < y
    ensures Ascending(a + b)
  {
    var all := a + b;
    forall i, j | 0 <= i < j < |all| ensures all[i] < all[j] {
      if i < |a| && j >= |a| { assert a[i] in a && b[j - |a|] in b; }
    }
  }

  lemma LargestBounds(ids: seq<nat>)
    requires Ascending(ids)
    ensures forall x | x in ids :: x <= Largest(ids)
  {
  }

  lemma CutCounts(batch: seq<nat>, k: nat, x: nat)
    requires k <= |batch|
    ensures multiset(batch[..k])[x] <= multiset(batch)[x]
    ensures multiset(batch[..k])[x] == multiset(batch)[x] <==> forall p | 0 <= p < |batch| && batch[p] == x :: p < k
  {
    assert batch == batch[..k] + batch[k..];
    assert multiset(batch)[x] == multiset(batch[..k])[x] + multiset(batch[k..])[x];
    assert multiset(batch[k..])[x] > 0 <==> x in batch[k..];
    if x in batch[k..] {
      var q :| 0 <= q < |batch[k..]| && batch[k..][q] == x;
      assert batch[k + q] == x;
    }
    assert forall p | k <= p < |batch| :: batch[p] == batch[k..][p - k];
  }

  /** Only a raise at x or before it in its page costs x its dispatch. */
  lemma {:induction false} RaisesCost(c: Cursor, sweeps: seq<Seen>, x: nat)
    ensures multiset(Dispatched(c, sweeps))[x] <= multiset(Paged(c, sweeps))[x]
    ensures multiset(Dispatched(c, sweeps))[x] == multiset(Paged(c, sweeps))[x] <==> NoRaiseBefore(c, sweeps, x)
    decreases |sweeps|
  {
    if sweeps != [] {
      var batch := Batch(c, sweeps[0]);
      CutCounts(batch, if sweeps[0].spawned < |batch| then sweeps[0].spawned else |batch|, x);
      assert batch[..|batch|] == batch;
      RaisesCost(Swept(c, sweeps[0]), sweeps[1..], x);
    }
  }

  /** Within one cycle the ids are paged in strictly ascending order above
      the cursor, and every id that stays eligible is among them. */
  lemma {:induction false} CyclePages(c: Cursor, sweeps: seq<Seen>)
    requires Cycle(c, sweeps) && c.mark > 0
    ensures var all := Paged(c, sweeps);
            && Ascending(all) && (forall x | x in all :: c.last < x <= c.mark)
            && (forall x: nat | c.last < x <= c.mark && AlwaysEligible(x, sweeps) :: x in all)
    decreases |sweeps|
  {
    var batch, next := Batch(c, sweeps[0]), Swept(c, sweeps[0]);
    PageSound(sweeps[0].forPage, c.last, c.mark);
    LargestBounds(batch);
    if next == START {
      assert Paged(c, sweeps) == batch;
      forall x: nat | c.last < x <= c.mark && AlwaysEligible(x, sweeps) ensures x in batch {
        assert x in sweeps[0].forPage;
      }
    } else {
      var rest := Paged(next, sweeps[1..]);
      CyclePages(next, sweeps[1..]);
      assert Largest(batch) in batch;
      AscendingConcat(batch, rest);
      forall x: nat | c.last < x <= c.mark && AlwaysEligible(x, sweeps) ensures x in batch + rest {
        assert x in sweeps[0].forPage;
        if x !in batch {
          assert forall i | 0 <= i < |sweeps[1..]| :: sweeps[1..][i] == sweeps[i + 1];
          assert AlwaysEligible(x, sweeps[1..]);
        }
      }
    }
  }

  lemma PagedOnce(sweeps: seq<Seen>, x: nat)
    requires Cycle(START, sweeps)
    ensures multiset(Paged(START, sweeps))[x] <= 1
    ensures 0 < x <= Largest(sweeps[0].forMark) && AlwaysEligible(x, sweeps) ==> multiset(Paged(START, sweeps))[x] == 1
  {
    var mark := Largest(sweeps[0].forMark);
    var all := Paged(START, sweeps);
    if mark == 0 {
      PageSound(sweeps[0].forPage, 0, 0);
      assert all == [];
    } else {
      // The first sweep fixes the mark; the rest of the cycle runs under it.
      SameUnderMark(sweeps, mark);
      CyclePages(Cursor(0, mark), sweeps);
    }
    AscendingOnce(all, x);
  }

  /** Fairness: in a full cycle no id is dispatched twice, and an id that is
      eligible throughout and not above the high-water mark is dispatched once,
      exactly if no dispatch raises at it or before it in its page. */
  lemma SweepIsFair(sweeps: seq<Seen>, x: nat)
    requires Cycle(START, sweeps)
    ensures multiset(Dispatched(START, sweeps))[x] <= 1
    ensures 0 < x <= Largest(sweeps[0].forMark) && AlwaysEligible(x, sweeps) ==>
              (multiset(Dispatched(START, sweeps))[x] == 1 <==> NoRaiseBefore(START, sweeps, x))
  {
    PagedOnce(sweeps, x);
    RaisesCost(START, sweeps, x);
  }

  lemma SameUnderMark(sweeps: seq<Seen>, mark: nat)
    requires Cycle(START, sweeps) && mark == Largest(sweeps[0].forMark) && mark > 0
    ensures Cycle(Cursor(0, mark), sweeps) && Paged(Cursor(0, mark), sweeps) == Paged(START, sweeps)
  {
  }

  lemma {:induction false} AscendingOnce(ids: seq<nat>, x: nat)
    requires Ascending(ids)
    ensures multiset(ids)[x] == if x in ids then 1 else 0
  {
    if ids != [] {
      var n := |ids| - 1;
      assert ids == ids[..n] + [ids[n]];
      AscendingOnce(ids[..n], x);
    }
  }

  // ----- every cycle ends -----

  function Left(c: Cursor): nat { if c.last <= c.mark then c.mark - c.last else 0 }

  /** A sweep that does not end the cycle keeps the mark and moves the cursor
      towards it, whatever rows arrived meanwhile. */
  lemma SweepProgresses(c: Cursor, seen: Seen)
    requires Scan(seen.forMark) && Scan(seen.forPage) && c.last <= c.mark && Swept(c, seen) != START
    ensures Swept(c, seen).mark == Marked(c, seen) && c.last < Swept(c, seen).last < Marked(c, seen)
    ensures c.mark > 0 ==> Left(Swept(c, seen)) < Left(c)
  {
    PageSound(seen.forPage, c.last, Marked(c, seen));
    assert Largest(Batch(c, seen)) in Batch(c, seen);
  }

  predicate Scans(sweeps: seq<Seen>) { forall i | 0 <= i < |sweeps| :: Scan(sweeps[i].forMark) && Scan(sweeps[i].forPage) }

  /** Any sequence of sweeps longer than what is left to visit contains the end
      of the cycle. */
  lemma {:induction false} CycleEnds(c: Cursor, sweeps: seq<Seen>) returns (n: nat)
    requires c.mark > 0 && c.last <= c.mark && Scans(sweeps) && |sweeps| > Left(c)
    ensures n <= Left(c) && Cycle(c, sweeps[..n + 1])
    decreases |sweeps|
  {
    var first := sweeps[0];
    if Swept(c, first) == START {
      n := 0;
      assert sweeps[..1] == [first];
    } else {
      SweepProgresses(c, first);
      assert forall i | 0 <= i < |sweeps[1..]| :: sweeps[1..][i] == sweeps[i + 1];
      var k := CycleEnds(Swept(c, first), sweeps[1..]);
      n := k + 1;
      assert sweeps[..n + 1][1..] == sweeps[1..][..k + 1];
    }
  }

  /** A cycle that starts now ends within as many sweeps as its mark allows. */
  lemma EveryCycleEnds(sweeps: seq<Seen>) returns (n: nat)
    requires sweeps != [] && Scans(sweeps) && |sweeps| > Largest(sweeps[0].forMark)
    ensures n <= Largest(sweeps[0].forMark) && Cycle(START, sweeps[..n + 1])
  {
    var mark := Largest(sweeps[0].forMark);
    if mark == 0 {
      n := 0;
      PageSound(sweeps[0].forPage, 0, 0);
      assert sweeps[..1] == [sweeps[0]];
    } else {
      n := CycleEnds(Cursor(0, mark), sweeps);
      assert sweeps[..n + 1][0] == sweeps[0];
      assert Swept(Cursor(0, mark), sweeps[0]) == Swept(START, sweeps[0]);
    }
  }
}
